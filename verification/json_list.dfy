/**
 * json_encode / json_decode restricted to what the plugin stores with them:
 * a list of strings (the tool's redirection URIs). The encoder writes
 * `["a","b"]` with no white space and escapes `"`, `\` and `/` with a
 * backslash, as PHP does by default; the decoder reads back exactly that
 * grammar and reports anything else as "not a list".
 */
module JsonList {
  import opened PhpText

  /** Characters json_encode writes with a backslash in front. */
  predicate Escaped(c: char) {
    c == '"' || c == '\\' || c == '/'
  }

  function EscapeText(u: string): (r: string)
    ensures |r| >= |u|
  {
    if u == [] then []
    else (if Escaped(u[0]) then ['\\', u[0]] else [u[0]]) + EscapeText(u[1..])
  }

  function EncodeString(u: string): string {
    "\"" + EscapeText(u) + "\""
  }

  function Items(us: seq<string>): string {
    if us == [] then ""
    else if |us| == 1 then EncodeString(us[0])
    else EncodeString(us[0]) + "," + Items(us[1..])
  }

  /** json_encode of a list of strings. */
  function EncodeList(us: seq<string>): (r: string)
    ensures |r| >= 2 && r[0] == '[' && r[|r| - 1] == ']'
  {
    "[" + Items(us) + "]"
  }

  /** Reads the body of a JSON string up to its closing quote: the text and what follows it. */
  function ParseString(s: string): (r: Option<(string, string)>)
    ensures r.Some? ==> |r.value.1| < |s|
    decreases |s|
  {
    if s == [] then None
    else if s[0] == '"' then Some(([], s[1..]))
    else if s[0] == '\\' then
      if |s| >= 2 && Escaped(s[1]) then
        match ParseString(s[2..])
        case None => None
        case Some(p) => Some(([s[1]] + p.0, p.1))
      else None
    else
      match ParseString(s[1..])
      case None => None
      case Some(p) => Some(([s[0]] + p.0, p.1))
  }

  /** Reads `"a","b"]`: one or more strings separated by commas, then the closing bracket. */
  function ParseItems(s: string): (r: Option<seq<string>>)
    ensures r.Some? ==> |r.value| >= 1
    decreases |s|
  {
    if s == [] || s[0] != '"' then None
    else
      match ParseString(s[1..])
      case None => None
      case Some(p) =>
        if p.1 == "]" then Some([p.0])
        else if |p.1| > 0 && p.1[0] == ',' then
          match ParseItems(p.1[1..])
          case None => None
          case Some(us) => Some([p.0] + us)
        else None
  }

  /** json_decode(s, true) when the result is a list of strings; None for anything else. */
  function DecodeList(s: string): (r: Option<seq<string>>)
    ensures r.Some? ==> |s| >= 2 && s[0] == '[' && s[|s| - 1] == ']'
  {
    if s == "[]" then Some([])
    else if |s| > 0 && s[0] == '[' then
      var r := ParseItems(s[1..]);
      if r.Some? then ParseItemsClosed(s[1..]); r else r
    else None
  }

  lemma {:induction false} ParseItemsClosed(s: string)
    requires ParseItems(s).Some?
    ensures |s| >= 1 && s[|s| - 1] == ']'
    decreases |s|
  {
    var p := ParseString(s[1..]).value;
    assert |p.1| < |s| - 1;
    assert s[|s| - |p.1|..] == p.1 by { ParseStringSuffix(s[1..]); }
    if p.1 != "]" {
      ParseItemsClosed(p.1[1..]);
      assert s[|s| - 1] == p.1[|p.1| - 1];
    } else {
      assert s[|s| - 1] == p.1[0];
    }
  }

  lemma {:induction false} ParseStringSuffix(s: string)
    requires ParseString(s).Some?
    ensures var rest := ParseString(s).value.1; |rest| <= |s| && s[|s| - |rest|..] == rest
    decreases |s|
  {
    if s[0] == '\\' {
      ParseStringSuffix(s[2..]);
    } else if s[0] != '"' {
      ParseStringSuffix(s[1..]);
    }
  }

  /** The string parser reads back exactly what EscapeText wrote. */
  lemma {:induction false} ParseEscaped(u: string, rest: string)
    ensures ParseString(EscapeText(u) + "\"" + rest) == Some((u, rest))
    decreases |u|
  {
    var s := EscapeText(u) + "\"" + rest;
    if u == [] {
      assert s == "\"" + rest;
    } else {
      ParseEscaped(u[1..], rest);
      var tail := EscapeText(u[1..]) + "\"" + rest;
      if Escaped(u[0]) {
        assert s == ['\\', u[0]] + tail;
        assert s[2..] == tail;
      } else {
        assert s == [u[0]] + tail;
        assert s[1..] == tail;
      }
      assert [u[0]] + u[1..] == u;
    }
  }

  lemma {:induction false} ParseItemsOfItems(us: seq<string>)
    requires |us| >= 1
    ensures ParseItems(Items(us) + "]") == Some(us)
    decreases |us|
  {
    var s := Items(us) + "]";
    if |us| == 1 {
      assert s == "\"" + (EscapeText(us[0]) + "\"" + "]");
      assert s[1..] == EscapeText(us[0]) + "\"" + "]";
      ParseEscaped(us[0], "]");
      assert ParseString(s[1..]) == Some((us[0], "]"));
      assert us == [us[0]];
    } else {
      var rest := "," + (Items(us[1..]) + "]");
      assert s == "\"" + (EscapeText(us[0]) + "\"" + rest);
      assert s[1..] == EscapeText(us[0]) + "\"" + rest;
      ParseEscaped(us[0], rest);
      assert rest[1..] == Items(us[1..]) + "]";
      ParseItemsOfItems(us[1..]);
      assert [us[0]] + us[1..] == us;
    }
  }

  /** json_decode(json_encode($uris), true) gives the list back. */
  lemma {:induction false} DecodeEncode(us: seq<string>)
    ensures DecodeList(EncodeList(us)) == Some(us)
  {
    var s := EncodeList(us);
    if us != [] {
      assert s[1..] == Items(us) + "]";
      ParseItemsOfItems(us);
      assert |Items(us)| >= 2;
      assert s != "[]";
    }
  }

  /** Escaping only inserts backslashes, so it creates no occurrence of a needle without one. */
  lemma {:induction false} EscapeKeepsAbsent(p: string, y: string, w: string)
    requires '\\' !in w
    requires !Contains(p + y, w)
    ensures !Contains(p + EscapeText(y), w)
    decreases |y|
  {
    if y == [] {
      assert p + EscapeText(y) == p + y;
    } else {
      var c, y' := y[0], y[1..];
      var e' := EscapeText(y');
      if Escaped(c) {
        assert p + y == p + ([c] + y');
        ContainsAppend(p, [c] + y', w);
        assert !Contains(p, w) && !Contains([c] + y', w);
        EscapeKeepsAbsent([c], y', w);
        assert !Contains([c] + e', w);
        assert EscapeText(y) == ['\\', c] + e';
        assert p + EscapeText(y) == p + ['\\'] + ([c] + e');
        ContainsAcrossSeparator(p, '\\', [c] + e', w);
      } else {
        assert p + y == (p + [c]) + y';
        EscapeKeepsAbsent(p + [c], y', w);
        assert EscapeText(y) == [c] + e';
        assert p + EscapeText(y) == (p + [c]) + e';
      }
    }
  }

  /** Characters of the list syntax that a needle must avoid for ListKeepsAbsent. */
  predicate FreeOfSyntax(w: string) {
    '\\' !in w && '"' !in w && ',' !in w && '[' !in w && ']' !in w
  }

  lemma {:induction false} ItemsKeepAbsent(us: seq<string>, w: string)
    requires |w| > 0 && FreeOfSyntax(w)
    requires forall i :: 0 <= i < |us| ==> !Contains(us[i], w)
    ensures !Contains(Items(us), w)
    decreases |us|
  {
    if us == [] {
      AbsentFromEmpty(w);
    } else {
      assert [] + us[0] == us[0];
      EscapeKeepsAbsent([], us[0], w);
      var e := EscapeText(us[0]);
      assert [] + e == e;
      AbsentFromEmpty(w);
      ContainsAcrossSeparator([], '"', e, w);
      assert [] + ['"'] + e == "\"" + e;
      ContainsAcrossSeparator("\"" + e, '"', [], w);
      assert "\"" + e + ['"'] + [] == EncodeString(us[0]);
      if |us| > 1 {
        ItemsKeepAbsent(us[1..], w);
        ContainsAcrossSeparator(EncodeString(us[0]), ',', Items(us[1..]), w);
      }
    }
  }

  /** A non-empty needle does not occur in the empty string. */
  lemma AbsentFromEmpty(w: string)
    requires |w| > 0
    ensures !Contains([], w)
  {
  }

  /** A needle that avoids the list syntax occurs in the encoded list only if it occurs in an element. */
  lemma {:induction false} ListKeepsAbsent(us: seq<string>, w: string)
    requires |w| > 0 && FreeOfSyntax(w)
    requires forall i :: 0 <= i < |us| ==> !Contains(us[i], w)
    ensures !Contains(EncodeList(us), w)
  {
    ItemsKeepAbsent(us, w);
    AbsentFromEmpty(w);
    ContainsAcrossSeparator([], '[', Items(us), w);
    assert [] + ['['] + Items(us) == "[" + Items(us);
    ContainsAcrossSeparator("[" + Items(us), ']', [], w);
    assert "[" + Items(us) + [']'] + [] == EncodeList(us);
  }
}
