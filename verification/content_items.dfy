/**
 * The returned content item turned into a shortcode (content() and
 * setAttribute() of the public class): each non-empty property becomes an
 * attribute ` name=value`, an array value is flattened to `k=v;k=v`, and a
 * value containing a space is put in double quotes.
 */
module ContentItems {
  import opened PhpText
  import opened PlatformV5
  import opened CustomParams

  /** empty($value): an empty string, "0", or an empty array. */
  predicate NoValue(v: AttrValue) {
    match v
    case Scalar(t) => Empty(t)
    case Pairs(ps) => ps == []
  }

  /** Each pair written as `k=v`. */
  function KeyValues(ps: seq<(string, string)>): (r: seq<string>)
    ensures |r| == |ps| && forall i :: 0 <= i < |ps| ==> r[i] == ps[i].0 + "=" + ps[i].1
  {
    seq(|ps|, i requires 0 <= i < |ps| => ps[i].0 + "=" + ps[i].1)
  }

  /** The value as setAttribute writes it before quoting: an array becomes its pairs joined by ';'. */
  function Flattened(v: AttrValue): string {
    match v
    case Scalar(t) => t
    case Pairs(ps) => Join(KeyValues(ps), ";")
  }

  /** The attribute setAttribute($name, $value) returns. */
  function Attribute(name: string, v: AttrValue): (r: string)
    ensures NoValue(v) <==> r == ""
    ensures !NoValue(v) ==> StartsWith(r, " " + name + "=")
    ensures !NoValue(v) && !Contains(Flattened(v), " ") ==> r == " " + name + "=" + Flattened(v)
    ensures !NoValue(v) && Contains(Flattened(v), " ") ==> r == " " + name + "=\"" + Flattened(v) + "\""
  {
    if NoValue(v) then ""
    else
      var a := Flattened(v);
      var r := " " + name + "=" + (if Contains(a, " ") then "\"" + a + "\"" else a);
      assert r[..|name| + 2] == " " + name + "=";
      r
  }

  /** What setAttribute's loop has appended after the pairs `ps`: each `k=v` followed by ';'. */
  function Terminated(ps: seq<(string, string)>): string
    decreases |ps|
  {
    if ps == [] then "" else Terminated(ps[..|ps| - 1]) + ps[|ps| - 1].0 + "=" + ps[|ps| - 1].1 + ";"
  }

  /** Joining one more piece on the right. */
  lemma {:induction false} JoinSnoc(xs: seq<string>, y: string, sep: string)
    requires |xs| >= 1
    ensures Join(xs + [y], sep) == Join(xs, sep) + sep + y
    decreases |xs|
  {
    if |xs| == 1 {
      assert (xs + [y])[1..] == [y];
    } else {
      assert (xs + [y])[1..] == xs[1..] + [y];
      JoinSnoc(xs[1..], y, sep);
    }
  }

  /** The loop's text is the joined pairs with one ';' too many. */
  lemma {:induction false} TerminatedIsJoin(ps: seq<(string, string)>)
    requires |ps| >= 1
    ensures Terminated(ps) == Join(KeyValues(ps), ";") + ";"
    decreases |ps|
  {
    var n := |ps| - 1;
    if n == 0 {
      assert KeyValues(ps) == [ps[0].0 + "=" + ps[0].1];
    } else {
      TerminatedIsJoin(ps[..n]);
      assert KeyValues(ps) == KeyValues(ps[..n]) + [ps[n].0 + "=" + ps[n].1];
      JoinSnoc(KeyValues(ps[..n]), ps[n].0 + "=" + ps[n].1, ";");
    }
  }

  /** setAttribute($name, $value). */
  method SetAttribute(name: string, value: AttrValue) returns (attr: string)
    ensures attr == Attribute(name, value)
  {
    attr := "";
    if !NoValue(value) {
      match value {
        case Scalar(t) =>
          attr := t;
        case Pairs(ps) =>
          var i := 0;
          while i < |ps|
            invariant 0 <= i <= |ps|
            invariant attr == Terminated(ps[..i])
          {
            assert ps[..i + 1][..i] == ps[..i];
            attr := attr + ps[i].0 + "=" + ps[i].1 + ";";
            i := i + 1;
          }
          assert ps[..i] == ps;
          TerminatedIsJoin(ps);
          attr := attr[..|attr| - 1];
      }
      if Contains(attr, " ") {
        attr := "\"" + attr + "\"";
      }
      attr := " " + name + "=" + attr;
    }
  }

  /** Whether content() reads the placement advice: only when there is one with a target. */
  predicate Placed(p: Option<Placement>) {
    p.Some? && !Empty(p.value.target)
  }

  /** The attribute for one value of the placement advice, when it is read at all. */
  function PlacementAttribute(p: Option<Placement>, name: string, v: string): (r: string)
    ensures !Placed(p) ==> r == ""
  {
    if Placed(p) then Attribute(name, Scalar(v)) else ""
  }

  /** The first entry of a comma-separated target list. */
  function FirstTarget(targets: string): string {
    Explode(targets, ",")[0]
  }

  /** The shortcode attributes content() builds for a returned item, with the random link id `rid`. */
  function ContentAttributes(code: string, rid: string, item: ItemObject): (r: string)
    ensures StartsWith(r, "tool=" + code + " id=" + ToLower(rid))
  {
    var head := "tool=" + code + " id=" + ToLower(rid);
    var p := item.placement;
    var r := head + Attribute("title", Scalar(item.title)) + Attribute("url", Scalar(item.url)) +
      PlacementAttribute(p, "target", if p.Some? then FirstTarget(p.value.target) else "") +
      PlacementAttribute(p, "width", if p.Some? then p.value.width else "") +
      PlacementAttribute(p, "height", if p.Some? then p.value.height else "") +
      Attribute("custom", item.custom);
    assert r[..|head|] == head;
    r
  }

  /** `$attr .= static::setAttribute($name, $value)` under content()'s own emptiness test. */
  method AppendAttribute(attr: string, name: string, v: AttrValue) returns (r: string)
    ensures r == attr + Attribute(name, v)
  {
    r := attr;
    if !NoValue(v) {
      var a := SetAttribute(name, v);
      r := r + a;
    }
  }

  /** The shortcode content() inserts: its attributes and the link text. */
  datatype Insert = Insert(attributes: string, linkText: string)

  /**
   * content($code) once the library has handled the returned message: when
   * the platform accepted an item, the shortcode attributes and link text
   * (the item's title, else the tool's name); otherwise nothing is inserted.
   */
  method Content(code: string, toolName: string, rid: string, ok: bool, item: ItemObject)
    returns (r: Option<Insert>)
    ensures !ok ==> r == None
    ensures ok ==> r == Some(Insert(ContentAttributes(code, rid, item),
      if Empty(item.title) then toolName else item.title))
  {
    if !ok {
      return None;
    }
    var linkText := toolName;
    var attr := "tool=" + code;
    attr := attr + " id=" + ToLower(rid);
    if !Empty(item.title) {
      linkText := item.title;
    }
    attr := AppendAttribute(attr, "title", Scalar(item.title));
    attr := AppendAttribute(attr, "url", Scalar(item.url));
    var p := item.placement;
    if Placed(p) {
      var targets := Explode(p.value.target, ",");
      attr := AppendAttribute(attr, "target", Scalar(targets[0]));
      attr := AppendAttribute(attr, "width", Scalar(p.value.width));
      attr := AppendAttribute(attr, "height", Scalar(p.value.height));
    } else {
      assert attr + "" + "" + "" == attr;
    }
    attr := AppendAttribute(attr, "custom", item.custom);
    r := Some(Insert(attr, linkText));
  }

  /** The target written is the first entry of the comma list: a prefix of it that holds no comma. */
  lemma TargetIsFirstListed(target: string)
    ensures StartsWith(target, FirstTarget(target))
    ensures ',' !in FirstTarget(target)
  {
    ExplodeFirst(target, ',');
  }

  // ----- the custom pairs of an item, read back by message() -----

  /** A piece without the separator explodes to itself, and a separator ends a piece. */
  lemma {:induction false} ExplodeAtSeparator(w: string, c: char, t: string)
    requires c !in w
    ensures Explode(w, [c]) == [w]
    ensures Explode(w + [c] + t, [c]) == [w] + Explode(t, [c])
    decreases |w|
  {
    var s := w + [c] + t;
    if w == [] {
      assert s[..1] == [c];
      assert s[1..] == t;
    } else {
      ExplodeAtSeparator(w[1..], c, t);
      assert s[..1] != [c];
      assert s[1..] == w[1..] + [c] + t;
      assert [w[0]] + w[1..] == w;
    }
  }

  /** Exploding pieces joined by a separator that none of them holds gives the pieces back. */
  lemma {:induction false} ExplodeJoin(xs: seq<string>, c: char)
    requires |xs| >= 1 && forall i :: 0 <= i < |xs| ==> c !in xs[i]
    ensures Explode(Join(xs, [c]), [c]) == xs
    decreases |xs|
  {
    if |xs| == 1 {
      ExplodeAtSeparator(xs[0], c, "");
    } else {
      ExplodeJoin(xs[1..], c);
      ExplodeAtSeparator(xs[0], c, Join(xs[1..], [c]));
      assert [xs[0]] + xs[1..] == xs;
    }
  }

  /** Replacing the separator of a join by another is joining with the other. */
  lemma {:induction false} ReplaceSeparator(xs: seq<string>, a: char, b: char)
    requires |xs| >= 1 && forall i :: 0 <= i < |xs| ==> a !in xs[i]
    ensures Replace(Join(xs, [a]), [a], [b]) == Join(xs, [b])
    decreases |xs|
  {
    if |xs| == 1 {
      ReplaceCopiesPrefix(xs[0], [a], [b], xs[0]);
      assert xs[0][|xs[0]|..] == "";
    } else {
      var rest := Join(xs[1..], [a]);
      var s := xs[0] + [a] + rest;
      assert StartsWith(s, xs[0]) by { assert s[..|xs[0]|] == xs[0]; }
      ReplaceCopiesPrefix(s, [a], [b], xs[0]);
      assert s[|xs[0]|..] == [a] + rest;
      ReplaceAtMatch([a], [b], rest);
      ReplaceSeparator(xs[1..], a, b);
    }
  }

  /** A piece `k=v` whose name has no '=' splits into k and v. */
  lemma SplitNamed(k: string, v: string)
    requires '=' !in k
    ensures SplitPair(k + "=" + v) == (VarName(k), v)
  {
    ExplodeAtSeparator(k, '=', v);
    var piece := k + "=" + v;
    assert piece[|k| + 1..] == v;
  }

  /** A plain name and its value come back from their query piece unchanged. */
  lemma SplitKeyValue(k: string, v: string)
    requires '=' !in k && ' ' !in k && '.' !in k
    ensures SplitPair(k + "=" + v) == (k, v)
  {
    SplitNamed(k, v);
    PlainVarName(k);
  }

  /**
   * A space before '=' is registered as '_': the piece `foo =bar` names foo_,
   * so it is sent as custom_foo_, not custom_foo.
   */
  lemma SpaceBeforeEquals(k: string, v: string)
    requires k != [] && '=' !in k && ' ' !in k && '.' !in k
    ensures SplitPair(k + " =" + v) == (k + "_", v)
  {
    assert k + " =" + v == (k + " ") + "=" + v;
    SplitNamed(k + " ", v);
    assert DropLeadingSpaces(k + " ") == k + " ";
    assert VarName(k + " ") == k + "_";
  }

  /**
   * Pairs that custom text can carry unchanged through the round trip: no
   * separators, nothing parse_str renames (a space or a dot in a name),
   * nothing it URL-decodes ('+' and '%') and, in a name, no '[' that would
   * start an array key.
   */
  predicate Transportable(ps: seq<(string, string)>) {
    (forall i :: 0 <= i < |ps| ==>
      ps[i].0 != "" && '=' !in ps[i].0 && ';' !in ps[i].0 && '&' !in ps[i].0 && ' ' !in ps[i].0 && '.' !in ps[i].0 &&
      '+' !in ps[i].0 && '%' !in ps[i].0 && '[' !in ps[i].0 &&
      ';' !in ps[i].1 && '&' !in ps[i].1 && '+' !in ps[i].1 && '%' !in ps[i].1) &&
    (forall i, j :: 0 <= i < j < |ps| ==> ps[i].0 != ps[j].0)
  }

  /** With distinct names, no pair's name is among the names before it. */
  lemma NameIsNew(ps: seq<(string, string)>, k: nat)
    requires Transportable(ps) && k < |ps|
    ensures ps[k].0 !in Keys(ps[..k])
  {
    forall j | 0 <= j < k
      ensures Keys(ps[..k])[j] != ps[k].0
    {
      assert ps[..k][j] == ps[j];
    }
  }

  /** A plain `name=value` piece with a new name is appended to the array read so far. */
  lemma PieceAppended(a: Pairs, name: string, value: string, rest: seq<string>)
    requires name != "" && '=' !in name && ' ' !in name && '.' !in name && name !in Keys(a)
    ensures ParsePieces(a, [name + "=" + value] + rest) == ParsePieces(a + [(name, value)], rest)
  {
    SplitKeyValue(name, value);
    assert ([name + "=" + value] + rest)[1..] == rest;
  }

  /** parse_str, having read the first k pieces as the first k pairs, reads the next piece as the next pair. */
  lemma ParseStep(ps: seq<(string, string)>, k: nat)
    requires Transportable(ps) && k < |ps|
    ensures ParsePieces(ps[..k], KeyValues(ps[k..])) == ParsePieces(ps[..k + 1], KeyValues(ps[k + 1..]))
  {
    var pieces := KeyValues(ps[k..]);
    assert pieces == [ps[k].0 + "=" + ps[k].1] + KeyValues(ps[k + 1..]);
    NameIsNew(ps, k);
    PieceAppended(ps[..k], ps[k].0, ps[k].1, KeyValues(ps[k + 1..]));
    assert ps[..k] + [ps[k]] == ps[..k + 1];
  }

  /** parse_str of the pieces from the k-th on, after the first k pairs, gives all the pairs. */
  lemma {:induction false} ParseFrom(ps: seq<(string, string)>, k: nat)
    requires Transportable(ps) && k <= |ps|
    ensures ParsePieces(ps[..k], KeyValues(ps[k..])) == ps
    decreases |ps| - k
  {
    if k == |ps| {
      assert ps[..k] == ps;
    } else {
      ParseStep(ps, k);
      ParseFrom(ps, k + 1);
    }
  }

  /**
   * An item's custom pairs, written by setAttribute as `k=v;k=v`, are read
   * back by message() (';' turned into '&', then parse_str) as the same
   * pairs, provided names and values hold none of the separators or of the
   * characters parse_str decodes, and the names are distinct and non-empty.
   */
  lemma CustomRoundTrip(ps: seq<(string, string)>)
    requires |ps| >= 1 && Transportable(ps)
    ensures ParseStr(Replace(Flattened(Pairs(ps)), ";", "&")) == ps
  {
    var xs := KeyValues(ps);
    assert forall i :: 0 <= i < |xs| ==> ';' !in xs[i] && '&' !in xs[i] by {
      forall i | 0 <= i < |xs|
        ensures ';' !in xs[i] && '&' !in xs[i]
      {
        assert xs[i] == ps[i].0 + "=" + ps[i].1;
      }
    }
    ReplaceSeparator(xs, ';', '&');
    ExplodeJoin(xs, '&');
    ParseFrom(ps, 0);
    assert ps[..0] == [] && ps[0..] == ps;
  }
}
