/**
 * Custom launch parameters. A link carries them as `name=value` pairs
 * separated by ';', a tool as pairs separated by `&#13;&#10;` (stored CR LF
 * line breaks); message() turns either separator into '&', reads the text
 * with parse_str, and writes each pair as the parameter `custom_<name>`
 * after normalising the name.
 */
module CustomParams {
  import opened PhpText

  /** A PHP array with string keys and values, in insertion order. */
  type Pairs = seq<(string, string)>

  /** The keys of an ordered array, in order. */
  function Keys(a: Pairs): (ks: seq<string>)
    ensures |ks| == |a| && forall i :: 0 <= i < |a| ==> ks[i] == a[i].0
  {
    seq(|a|, i requires 0 <= i < |a| => a[i].0)
  }

  /** $a[$k] = $v on an ordered array: an existing key keeps its place, a new key goes last. */
  function Put(a: Pairs, k: string, v: string): (r: Pairs)
    ensures k in Keys(a) ==> |r| == |a|
    ensures k !in Keys(a) ==> r == a + [(k, v)]
    decreases |a|
  {
    if a == [] then [(k, v)]
    else if a[0].0 == k then [(k, v)] + a[1..]
    else
      assert Keys(a[1..]) == Keys(a)[1..];
      [a[0]] + Put(a[1..], k, v)
  }

  /** A name without its leading spaces. */
  function DropLeadingSpaces(s: string): (r: string)
    ensures |r| <= |s| && s[|s| - |r|..] == r
    ensures r == [] || r[0] != ' '
    decreases |s|
  {
    if |s| > 0 && s[0] == ' ' then DropLeadingSpaces(s[1..]) else s
  }

  /**
   * The name parse_str registers for the text before '=': leading spaces are
   * dropped, then every ' ' and '.' becomes '_'.
   */
  function VarName(raw: string): (r: string)
    ensures |r| <= |raw|
    ensures forall i :: 0 <= i < |r| ==> r[i] != ' ' && r[i] != '.'
  {
    var t := DropLeadingSpaces(raw);
    seq(|t|, i requires 0 <= i < |t| => if t[i] == ' ' || t[i] == '.' then '_' else t[i])
  }

  /** A name with no space and no dot is registered as it is. */
  lemma PlainVarName(raw: string)
    requires ' ' !in raw && '.' !in raw
    ensures VarName(raw) == raw
  {
    assert DropLeadingSpaces(raw) == raw;
  }

  /**
   * One piece of a query string: the name up to the first '=', as parse_str
   * registers it, and the value after it ('' with no '=').
   */
  function SplitPair(piece: string): (r: (string, string))
    ensures ' ' !in r.0 && '.' !in r.0
  {
    var name := Explode(piece, "=")[0];
    (VarName(name), if |name| < |piece| then piece[|name| + 1..] else "")
  }

  /** Every name is non-empty and has no space and no dot, as parse_str registers names. */
  predicate Registered(a: Pairs) {
    forall i :: 0 <= i < |a| ==> a[i].0 != "" && ' ' !in a[i].0 && '.' !in a[i].0
  }

  /** No name occurs twice. */
  predicate DistinctNames(a: Pairs) {
    forall i, j :: 0 <= i < j < |a| ==> a[i].0 != a[j].0
  }

  /** $a[$k] = $v keeps the names distinct, and every name afterwards is k or was there before. */
  lemma {:induction false} PutNames(a: Pairs, k: string, v: string)
    ensures DistinctNames(a) ==> DistinctNames(Put(a, k, v))
    ensures forall i :: 0 <= i < |Put(a, k, v)| ==> Put(a, k, v)[i].0 == k || Put(a, k, v)[i].0 in Keys(a)
    decreases |a|
  {
    if a != [] && a[0].0 != k {
      assert Keys(a[1..]) == Keys(a)[1..];
      PutNames(a[1..], k, v);
      var r := Put(a, k, v);
      assert r == [a[0]] + Put(a[1..], k, v);
      if DistinctNames(a) {
        forall i | 0 < i < |r|
          ensures r[i].0 != a[0].0
        {
          assert r[i] == Put(a[1..], k, v)[i - 1];
          if r[i].0 != k {
            var j :| 0 <= j < |a[1..]| && Keys(a[1..])[j] == r[i].0;
            assert a[j + 1].0 == r[i].0;
          }
        }
      }
    }
  }

  /**
   * parse_str on the pieces of a query string, read from the left: empty
   * pieces and empty names are skipped, and a repeated name keeps its
   * first place with its last value.
   */
  function ParsePieces(a: Pairs, pieces: seq<string>): Pairs
    decreases |pieces|
  {
    if pieces == [] then a
    else
      var p := SplitPair(pieces[0]);
      ParsePieces(if pieces[0] == "" || p.0 == "" then a else Put(a, p.0, p.1), pieces[1..])
  }

  /** parse_str($s, $custom). */
  function ParseStr(s: string): Pairs {
    ParsePieces([], Explode(s, "&"))
  }

  /** Reading further pieces keeps the names registered and distinct. */
  lemma {:induction false} ParsePiecesNames(a: Pairs, pieces: seq<string>)
    requires Registered(a) && DistinctNames(a)
    ensures Registered(ParsePieces(a, pieces)) && DistinctNames(ParsePieces(a, pieces))
    decreases |pieces|
  {
    if pieces != [] {
      var p := SplitPair(pieces[0]);
      if pieces[0] == "" || p.0 == "" {
        ParsePiecesNames(a, pieces[1..]);
      } else {
        PutNames(a, p.0, p.1);
        ParsePiecesNames(Put(a, p.0, p.1), pieces[1..]);
      }
    }
  }

  /** The array parse_str returns has distinct, non-empty names with no space or dot. */
  lemma ParseStrNames(s: string)
    ensures Registered(ParseStr(s)) && DistinctNames(ParseStr(s))
  {
    ParsePiecesNames([], Explode(s, "&"));
  }

  /** What preg_replace('/[^a-z0-9]/', '_', …) makes of one character: one '_' per byte of it otherwise. */
  function NameChar(c: char): (r: string)
    ensures |r| >= 1
  {
    if ('a' <= c <= 'z') || IsDigit(c) then [c] else seq(|Utf8(c)|, _ => '_')
  }

  function Underscored(s: string): (r: string)
    ensures forall i :: 0 <= i < |r| ==> ('a' <= r[i] <= 'z') || IsDigit(r[i]) || r[i] == '_'
  {
    if s == [] then "" else NameChar(s[0]) + Underscored(s[1..])
  }

  /** A custom parameter's normalised name: trimmed, lowered, anything outside [a-z0-9] replaced. */
  function CustomName(name: string): (r: string)
    ensures forall i :: 0 <= i < |r| ==> ('a' <= r[i] <= 'z') || IsDigit(r[i]) || r[i] == '_'
  {
    Underscored(ToLower(Trim(name)))
  }

  /** The pairs with their names normalised. */
  function Named(custom: Pairs): (r: Pairs)
    ensures |r| == |custom|
    ensures forall i :: 0 <= i < |custom| ==> r[i] == (CustomName(custom[i].0), custom[i].1)
  {
    seq(|custom|, i requires 0 <= i < |custom| => (CustomName(custom[i].0), custom[i].1))
  }

  /** Each pair with a non-empty name, in order, written as the parameter custom_<name>. */
  function AddNamed(params: map<string, string>, named: Pairs): map<string, string>
    decreases |named|
  {
    if named == [] then params
    else
      var q := AddNamed(params, named[..|named| - 1]);
      var last := named[|named| - 1];
      if Empty(last.0) then q else q["custom_" + last.0 := last.1]
  }

  /** message()'s foreach over the parsed pairs: each pair with a non-empty normalised name becomes custom_<name>. */
  function AddCustom(params: map<string, string>, custom: Pairs): map<string, string> {
    AddNamed(params, Named(custom))
  }

  /** Writing the pairs up to i + 1 is writing those up to i, then pair i. */
  lemma AddNamedStep(params: map<string, string>, named: Pairs, i: nat)
    requires i < |named|
    ensures AddNamed(params, named[..i + 1]) ==
      (if Empty(named[i].0) then AddNamed(params, named[..i])
       else AddNamed(params, named[..i])["custom_" + named[i].0 := named[i].1])
  {
    assert named[..i + 1][..i] == named[..i];
  }

  /** The foreach loop of message() that copies custom pairs into the message parameters. */
  method AddCustomParams(params: map<string, string>, custom: Pairs) returns (r: map<string, string>)
    ensures r == AddCustom(params, custom)
  {
    ghost var named := Named(custom);
    r := params;
    var i := 0;
    while i < |custom|
      invariant 0 <= i <= |custom|
      invariant r == AddNamed(params, named[..i])
    {
      AddNamedStep(params, named, i);
      var name := CustomName(custom[i].0);
      if !Empty(name) {
        r := r["custom_" + name := custom[i].1];
      }
      i := i + 1;
    }
    assert named[..i] == named;
  }

  /** Parameters whose names do not start with "custom_" are left as they were. */
  lemma {:induction false} OtherParamsKept(params: map<string, string>, named: Pairs, k: string)
    requires !StartsWith(k, "custom_")
    ensures k in AddNamed(params, named) <==> k in params
    ensures k in params ==> AddNamed(params, named)[k] == params[k]
    decreases |named|
  {
    if named != [] {
      OtherParamsKept(params, named[..|named| - 1], k);
      assert StartsWith("custom_" + named[|named| - 1].0, "custom_");
    }
  }

  /** Different names give different parameter names. */
  lemma PrefixedDiffer(a: string, b: string)
    requires a != b
    ensures "custom_" + a != "custom_" + b
  {
    assert ("custom_" + a)[7..] == a && ("custom_" + b)[7..] == b;
  }

  /** The last pair with a given non-empty name decides that parameter's value. */
  lemma {:induction false} LastPairWins(params: map<string, string>, named: Pairs, i: nat)
    requires i < |named| && !Empty(named[i].0)
    requires forall j :: i < j < |named| ==> named[j].0 != named[i].0
    ensures "custom_" + named[i].0 in AddNamed(params, named)
    ensures AddNamed(params, named)["custom_" + named[i].0] == named[i].1
    decreases |named|
  {
    var n := |named| - 1;
    if i < n {
      var front := named[..n];
      assert front[i] == named[i];
      assert forall j :: i < j < n ==> front[j] == named[j];
      LastPairWins(params, front, i);
      PrefixedDiffer(named[n].0, named[i].0);
    }
  }

  /**
   * Tool-level pairs are written after link-level ones, so on a clash of
   * normalised names the tool's value is the one sent.
   */
  lemma ToolWinsOverLink(params: map<string, string>, link: Pairs, tool: Pairs, i: nat)
    requires i < |tool| && !Empty(CustomName(tool[i].0))
    requires forall j :: i < j < |tool| ==> CustomName(tool[j].0) != CustomName(tool[i].0)
    ensures "custom_" + CustomName(tool[i].0) in AddCustom(AddCustom(params, link), tool)
    ensures AddCustom(AddCustom(params, link), tool)["custom_" + CustomName(tool[i].0)] == tool[i].1
  {
    LastPairWins(AddCustom(params, link), Named(tool), i);
  }

  /** Custom pairs only ever add or change parameters named custom_…. */
  lemma CustomOnlyAddsCustom(params: map<string, string>, custom: Pairs, k: string)
    requires !StartsWith(k, "custom_")
    ensures k in AddCustom(params, custom) <==> k in params
    ensures k in params ==> AddCustom(params, custom)[k] == params[k]
  {
    OtherParamsKept(params, Named(custom), k);
  }
}
