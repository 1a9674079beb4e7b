/**
 * The handful of PHP string built-ins the plugin's core relies on, with the
 * PHP semantics the plugin depends on: empty(), str_replace with one
 * search/replace pair, strpos-based tests, explode/implode, strtolower,
 * trim, intval/strval and urlencode.
 */
module PhpText {

  datatype Option<T> = None | Some(value: T)

  /** A value, or the reason there is none. */
  datatype Result<T> = Success(value: T) | Failure(error: string)

  /** PHP's empty() on a string: both "" and "0" are empty. */
  predicate Empty(s: string) {
    s == "" || s == "0"
  }

  /** $a[$k] on a PHP array of strings: a missing key reads as null, which behaves as ''. */
  function Lookup(a: map<string, string>, k: string): string {
    if k in a then a[k] else ""
  }

  predicate StartsWith(s: string, prefix: string) {
    |prefix| <= |s| && s[..|prefix|] == prefix
  }

  /** strpos($s, $needle) !== false (an empty needle is found at offset 0, as in PHP 8). */
  predicate Contains(s: string, needle: string)
    decreases |s|
  {
    StartsWith(s, needle) || (|s| > 0 && Contains(s[1..], needle))
  }

  lemma {:induction false} ContainsAppend(a: string, b: string, w: string)
    ensures Contains(a, w) ==> Contains(a + b, w)
    ensures Contains(b, w) ==> Contains(a + b, w)
    decreases |a|
  {
    if a == [] {
      assert a + b == b;
    } else {
      assert (a + b)[1..] == a[1..] + b;
      ContainsAppend(a[1..], b, w);
      if StartsWith(a, w) {
        assert (a + b)[..|w|] == a[..|w|];
      }
    }
  }

  lemma PrefixChar(s: string, w: string, k: nat)
    requires StartsWith(s, w) && k < |w|
    ensures s[k] in w
  {
    assert w[k] == s[k];
  }

  /** An occurrence that spans a character absent from the needle lies wholly on one side of it. */
  lemma {:induction false} ContainsAcrossSeparator(a: string, c: char, b: string, w: string)
    requires c !in w
    ensures Contains(a + [c] + b, w) ==> Contains(a, w) || Contains(b, w)
    decreases |a|
  {
    var s := a + [c] + b;
    if a == [] {
      assert s == [c] + b && s[1..] == b;
      if |w| > 0 && StartsWith(s, w) {
        PrefixChar(s, w, 0);
      }
      if |w| == 0 {
        assert StartsWith(b, w);
      }
    } else {
      assert s[1..] == a[1..] + [c] + b;
      ContainsAcrossSeparator(a[1..], c, b, w);
      if StartsWith(s, w) && |w| > |a| {
        PrefixChar(s, w, |a|);
      }
      if StartsWith(s, w) && |w| <= |a| {
        assert s[..|w|] == a[..|w|];
      }
      if Contains(a[1..], w) {
        assert Contains(a, w);
      }
    }
  }

  /**
   * str_replace($search, $replace, $s) for a single non-empty search string:
   * the subject is scanned from the left and every non-overlapping occurrence
   * is replaced. An empty search string leaves the subject unchanged.
   */
  function Replace(s: string, search: string, replace: string): (r: string)
    ensures |search| > 0 && !Contains(s, search) ==> r == s
    decreases |s|
  {
    if |search| == 0 || |s| < |search| then s
    else if s[..|search|] == search then replace + Replace(s[|search|..], search, replace)
    else [s[0]] + Replace(s[1..], search, replace)
  }

  lemma ReplaceAtMatch(search: string, replace: string, rest: string)
    requires |search| > 0
    ensures Replace(search + rest, search, replace) == replace + Replace(rest, search, replace)
  {
    assert (search + rest)[..|search|] == search;
    assert (search + rest)[|search|..] == rest;
  }

  /** Replacing a string by itself changes nothing. */
  lemma {:induction false} ReplaceBySelf(s: string, search: string)
    ensures Replace(s, search, search) == s
    decreases |s|
  {
    if |search| > 0 && |s| >= |search| {
      if s[..|search|] == search {
        ReplaceBySelf(s[|search|..], search);
        assert s == search + s[|search|..];
      } else {
        ReplaceBySelf(s[1..], search);
        assert s == [s[0]] + s[1..];
      }
    }
  }

  /**
   * If the output of a replacement starts with `w`, and `w` never contains the
   * first character of the replacement text, then the input starts with `w`.
   */
  lemma {:induction false} ReplacedPrefix(t: string, search: string, replace: string, w: string)
    requires |search| > 0 && |replace| > 0
    requires replace[0] !in w
    requires StartsWith(Replace(t, search, replace), w)
    ensures StartsWith(t, w)
    decreases |w|
  {
    if |w| > 0 && |t| >= |search| {
      var out := Replace(t, search, replace);
      var first := out[0];
      assert first == w[0];
      if t[..|search|] != search {
        var r := Replace(t[1..], search, replace);
        assert out == [t[0]] + r;
        assert StartsWith(r, w[1..]) by {
          assert r[..|w| - 1] == ([t[0]] + r)[1..|w|];
        }
        ReplacedPrefix(t[1..], search, replace, w[1..]);
        assert t[..|w|] == [t[0]] + t[1..][..|w| - 1];
      }
    }
  }

  /** A prefix free of the search string's first character is copied unchanged. */
  lemma {:induction false} ReplaceCopiesPrefix(t: string, search: string, replace: string, w: string)
    requires |search| > 0
    requires search[0] !in w
    requires StartsWith(t, w)
    ensures Replace(t, search, replace) == w + Replace(t[|w|..], search, replace)
    decreases |w|
  {
    if |w| > 0 {
      ReplaceCopiesPrefix(t[1..], search, replace, w[1..]);
      assert t[1..][|w| - 1..] == t[|w|..];
      if |t| >= |search| {
        assert t[0] != search[0];
        assert t[..|search|] != search;
      }
      assert w == [t[0]] + w[1..];
    }
  }

  /**
   * explode($sep, $s) for a non-empty separator: the pieces between the
   * separators, scanning from the left; there is always at least one piece.
   */
  function Explode(s: string, sep: string): (parts: seq<string>)
    requires |sep| > 0
    ensures |parts| >= 1
    decreases |s|
  {
    if |s| < |sep| then [s]
    else if s[..|sep|] == sep then [""] + Explode(s[|sep|..], sep)
    else
      var rest := Explode(s[1..], sep);
      [[s[0]] + rest[0]] + rest[1..]
  }

  /** implode($sep, $parts). */
  function Join(parts: seq<string>, sep: string): string
    decreases |parts|
  {
    if parts == [] then ""
    else if |parts| == 1 then parts[0]
    else parts[0] + sep + Join(parts[1..], sep)
  }

  /** Prefixing a character to the first piece prefixes it to the joined text. */
  lemma JoinConsFirst(c: char, rest: seq<string>, sep: string)
    requires |rest| >= 1
    ensures Join([[c] + rest[0]] + rest[1..], sep) == [c] + Join(rest, sep)
  {
    var parts := [[c] + rest[0]] + rest[1..];
    if |rest| > 1 {
      assert parts[1..] == rest[1..];
      assert Join(parts, sep) == ([c] + rest[0]) + sep + Join(rest[1..], sep);
      assert Join(rest, sep) == rest[0] + sep + Join(rest[1..], sep);
    }
  }

  /** Joining the pieces of an explode with its separator gives back the input. */
  lemma {:induction false} JoinExplode(s: string, sep: string)
    requires |sep| > 0
    ensures Join(Explode(s, sep), sep) == s
    decreases |s|
  {
    if |s| < |sep| {
    } else if s[..|sep|] == sep {
      var rest := Explode(s[|sep|..], sep);
      assert Explode(s, sep) == [""] + rest;
      assert ([""] + rest)[1..] == rest;
      assert Join([""] + rest, sep) == "" + sep + Join(rest, sep);
      JoinExplode(s[|sep|..], sep);
      assert s == s[..|sep|] + s[|sep|..];
    } else {
      var rest := Explode(s[1..], sep);
      assert Explode(s, sep) == [[s[0]] + rest[0]] + rest[1..];
      JoinExplode(s[1..], sep);
      JoinConsFirst(s[0], rest, sep);
      assert s == [s[0]] + s[1..];
    }
  }

  /** The first piece of an explode is the input up to the first separator. */
  lemma {:induction false} ExplodeFirst(s: string, sep: char)
    ensures StartsWith(s, Explode(s, [sep])[0])
    ensures sep !in Explode(s, [sep])[0]
    decreases |s|
  {
    if |s| >= 1 && s[..1] != [sep] {
      ExplodeFirst(s[1..], sep);
      var first := Explode(s[1..], [sep])[0];
      assert Explode(s, [sep])[0] == [s[0]] + first;
      assert s[..|first| + 1] == [s[0]] + s[1..][..|first|];
    }
  }

  /** strtolower: ASCII upper-case letters are lowered, everything else is kept. */
  function ToLower(s: string): (r: string)
    ensures |r| == |s|
    ensures forall i :: 0 <= i < |s| ==> r[i] == LowerChar(s[i])
  {
    seq(|s|, i requires 0 <= i < |s| => LowerChar(s[i]))
  }

  function LowerChar(c: char): char {
    if 'A' <= c <= 'Z' then (c as int + 32) as char else c
  }

  /** The characters trim() strips by default: space, tab, LF, CR, NUL and vertical tab. */
  predicate TrimChar(c: char) {
    c == ' ' || c == '\t' || c == '\n' || c == '\r' || c == '\0' || c == '\U{000B}'
  }

  function TrimLeft(s: string): string {
    if |s| > 0 && TrimChar(s[0]) then TrimLeft(s[1..]) else s
  }

  function TrimRight(s: string): string {
    if |s| > 0 && TrimChar(s[|s| - 1]) then TrimRight(s[..|s| - 1]) else s
  }

  /** trim(): the input with the trim characters removed from both ends. */
  function Trim(s: string): string {
    TrimRight(TrimLeft(s))
  }

  /** TrimLeft keeps a suffix of its input that does not start with a trim character. */
  lemma {:induction false} TrimLeftSuffix(s: string)
    ensures |TrimLeft(s)| <= |s| && s[|s| - |TrimLeft(s)|..] == TrimLeft(s)
    ensures |TrimLeft(s)| > 0 ==> !TrimChar(TrimLeft(s)[0])
    decreases |s|
  {
    if |s| > 0 && TrimChar(s[0]) {
      TrimLeftSuffix(s[1..]);
    }
  }

  /** TrimRight keeps a prefix of its input that does not end with a trim character. */
  lemma {:induction false} TrimRightPrefix(s: string)
    ensures |TrimRight(s)| <= |s| && s[..|TrimRight(s)|] == TrimRight(s)
    ensures |TrimRight(s)| > 0 ==> !TrimChar(TrimRight(s)[|TrimRight(s)| - 1])
    decreases |s|
  {
    if |s| > 0 && TrimChar(s[|s| - 1]) {
      TrimRightPrefix(s[..|s| - 1]);
    }
  }

  /**
   * trim() returns the slice of its input that starts after the leading trim
   * characters, and that slice neither starts nor ends with a trim character.
   */
  lemma TrimStrips(s: string)
    ensures var i := |s| - |TrimLeft(s)|; 0 <= i && i + |Trim(s)| <= |s| && s[i..i + |Trim(s)|] == Trim(s)
    ensures |Trim(s)| > 0 ==> !TrimChar(Trim(s)[0]) && !TrimChar(Trim(s)[|Trim(s)| - 1])
  {
    var l := TrimLeft(s);
    TrimLeftSuffix(s);
    TrimRightPrefix(l);
    var i := |s| - |l|;
    assert s[i..i + |Trim(s)|] == l[..|Trim(s)|];
  }

  // ---------------------------------------------------------------------
  // intval / strval on decimal integers

  predicate IsDigit(c: char) {
    '0' <= c <= '9'
  }

  function DigitChar(d: nat): char
    requires d < 10
  {
    ('0' as int + d) as char
  }

  /** The decimal digits of n, most significant first, with no leading zero. */
  function NatToString(n: nat): (r: string)
    ensures |r| > 0 && forall i :: 0 <= i < |r| ==> IsDigit(r[i])
    decreases n
  {
    if n < 10 then [DigitChar(n)] else NatToString(n / 10) + [DigitChar(n % 10)]
  }

  /** strval() of an integer. */
  function IntToString(n: int): (r: string)
    ensures |r| > 0
  {
    if n < 0 then "-" + NatToString(-n) else NatToString(n)
  }

  /** The longest prefix of s made of decimal digits. */
  function LeadingDigits(s: string): (r: string)
    ensures StartsWith(s, r)
    ensures forall i :: 0 <= i < |r| ==> IsDigit(r[i])
  {
    if |s| > 0 && IsDigit(s[0]) then [s[0]] + LeadingDigits(s[1..]) else ""
  }

  function DigitsValue(d: string): nat
    requires forall i :: 0 <= i < |d| ==> IsDigit(d[i])
    decreases |d|
  {
    if d == [] then 0
    else
      assert IsDigit(d[|d| - 1]);
      DigitsValue(d[..|d| - 1]) * 10 + (d[|d| - 1] as int - '0' as int)
  }

  /** The whitespace intval() skips before the number. */
  predicate SpaceChar(c: char) {
    c == ' ' || c == '\t' || c == '\n' || c == '\r' || c == '\U{000B}' || c == '\U{000C}'
  }

  function SkipSpace(s: string): string {
    if |s| > 0 && SpaceChar(s[0]) then SkipSpace(s[1..]) else s
  }

  /**
   * intval() of a string: leading whitespace, an optional sign, then as many
   * decimal digits as follow; a string that does not start with a number gives 0.
   */
  function IntVal(s: string): int {
    var t := SkipSpace(s);
    if |t| > 0 && t[0] == '-' then -(DigitsValue(LeadingDigits(t[1..])) as int)
    else if |t| > 0 && t[0] == '+' then DigitsValue(LeadingDigits(t[1..]))
    else DigitsValue(LeadingDigits(t))
  }

  lemma {:induction false} DigitsValueOfNat(n: nat)
    ensures DigitsValue(NatToString(n)) == n
    decreases n
  {
    if n >= 10 {
      DigitsValueOfNat(n / 10);
      var s := NatToString(n);
      assert s[..|s| - 1] == NatToString(n / 10);
    }
  }

  lemma {:induction false} LeadingDigitsOfDigits(d: string)
    requires forall i :: 0 <= i < |d| ==> IsDigit(d[i])
    ensures LeadingDigits(d) == d
    decreases |d|
  {
    if d != [] {
      LeadingDigitsOfDigits(d[1..]);
    }
  }

  /** intval(strval(n)) == n: the decimal rendering of an integer reads back as that integer. */
  lemma IntValOfString(n: int)
    ensures IntVal(IntToString(n)) == n
  {
    if n < 0 {
      var d := NatToString(-n);
      assert ("-" + d)[1..] == d;
      LeadingDigitsOfDigits(d);
      DigitsValueOfNat(-n);
    } else {
      LeadingDigitsOfDigits(NatToString(n));
      DigitsValueOfNat(n);
    }
  }

  // ---------------------------------------------------------------------
  // urlencode

  /** Characters urlencode() leaves as they are. */
  predicate Unreserved(c: char) {
    ('a' <= c <= 'z') || ('A' <= c <= 'Z') || IsDigit(c) || c == '-' || c == '_' || c == '.'
  }

  /** Characters that can appear in urlencode() output. */
  predicate UrlEncodedChar(c: char) {
    Unreserved(c) || c == '+' || c == '%' || ('A' <= c <= 'F')
  }

  function HexDigit(d: int): (c: char)
    requires 0 <= d < 16
    ensures UrlEncodedChar(c)
  {
    if d < 10 then DigitChar(d) else ('A' as int + d - 10) as char
  }

  /** The UTF-8 encoding of one Unicode scalar value. */
  function Utf8(c: char): (bytes: seq<int>)
    ensures forall i :: 0 <= i < |bytes| ==> 0 <= bytes[i] < 256
  {
    var cp := c as int;
    if cp < 0x80 then [cp]
    else if cp < 0x800 then [0xC0 + cp / 64, 0x80 + cp % 64]
    else if cp < 0x1_0000 then [0xE0 + cp / 4096, 0x80 + (cp / 64) % 64, 0x80 + cp % 64]
    else [0xF0 + (cp / 262144) % 8, 0x80 + (cp / 4096) % 64, 0x80 + (cp / 64) % 64, 0x80 + cp % 64]
  }

  function PercentBytes(bytes: seq<int>): (r: string)
    requires forall i :: 0 <= i < |bytes| ==> 0 <= bytes[i] < 256
    ensures forall i :: 0 <= i < |r| ==> UrlEncodedChar(r[i])
  {
    if bytes == [] then ""
    else ['%', HexDigit(bytes[0] / 16), HexDigit(bytes[0] % 16)] + PercentBytes(bytes[1..])
  }

  function UrlEncodeChar(c: char): (r: string)
    ensures forall i :: 0 <= i < |r| ==> UrlEncodedChar(r[i])
  {
    if Unreserved(c) then [c] else if c == ' ' then "+" else PercentBytes(Utf8(c))
  }

  /**
   * urlencode(): letters, digits and "-_." are kept, a space becomes "+",
   * every other character becomes %XX for each byte of its UTF-8 encoding.
   * The result can therefore never break out of a query-string value.
   */
  function UrlEncode(s: string): (r: string)
    ensures forall i :: 0 <= i < |r| ==> UrlEncodedChar(r[i])
    ensures (forall i :: 0 <= i < |s| ==> Unreserved(s[i])) ==> r == s
  {
    if s == [] then "" else UrlEncodeChar(s[0]) + UrlEncode(s[1..])
  }
}
