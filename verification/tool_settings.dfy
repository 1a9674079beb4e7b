/**
 * How the data connector stores a tool's structured properties inside its
 * settings bag under the reserved `__…` names, and reads them back
 * (DataConnector_wp::fixToolSettings). Two values are escaped on the way in:
 * the CR LF line breaks of the RSA key become `&#13;&#10;`, and the double
 * quotes of the JSON-encoded redirection URIs become `&quot;`.
 */
module ToolSettings {
  import opened PhpText
  import opened JsonList
  import opened LtiTool

  const CrLf := "\r\n"
  const CrLfEntity := "&#13;&#10;"
  const Quote := "\""
  const QuoteEntity := "&quot;"
  const SecondsPerDay := 86400

  /** The reserved names under which the structured properties are stored. */
  const ReservedNames: set<string> := {
    "__key", "__secret", "__messageUrl", "__useContentItem", "__contentItemUrl",
    "__initiateLoginUrl", "__redirectionUris", "__jku", "__rsaKey", "__lastAccess"
  }

  /** The reserved names of equal length differ at one position. */
  lemma ReservedNamesDistinct()
    ensures "__key" != "__jku" && "__secret" != "__rsaKey"
    ensures "__messageUrl" != "__lastAccess" && "__useContentItem" != "__contentItemUrl"
  {
    assert "__key"[2] != "__jku"[2];
    assert "__secret"[2] != "__rsaKey"[2];
    assert "__messageUrl"[2] != "__lastAccess"[2];
    assert "__useContentItem"[2] != "__contentItemUrl"[2];
  }

  /** The start of the (GMT) day that contains instant `t`. */
  function DayStart(t: int): int {
    (t / SecondsPerDay) * SecondsPerDay
  }

  /**
   * gmdate($dateFormat, $t) for the connector's day-granular date format: the
   * model writes the day as "@" and the Unix time of its start, which is what
   * strtotime reads it back as.
   */
  function DateText(t: int): (r: string)
    ensures !Empty(r) && r[0] == '@'
  {
    "@" + IntToString(DayStart(t))
  }

  /** strtotime of a stored date; text it cannot read gives false, which behaves as 0. */
  function ParseDate(v: string): int {
    if |v| > 0 && v[0] == '@' then IntVal(v[1..]) else 0
  }

  function EncodeUris(us: seq<string>): string {
    Replace(EncodeList(us), Quote, QuoteEntity)
  }

  /** json_decode of the stored list after `&quot;` is turned back into `"`; anything but a list gives []. */
  function DecodeUris(v: string): (us: seq<string>)
    ensures DecodeList(Replace(v, QuoteEntity, Quote)).None? ==> us == []
  {
    match DecodeList(Replace(v, QuoteEntity, Quote))
    case Some(us) => us
    case None => []
  }

  function EncodeRsaKey(k: string): string {
    Replace(k, CrLf, CrLfEntity)
  }

  function DecodeRsaKey(v: string): string {
    Replace(v, CrLfEntity, CrLf)
  }

  /** The stored form of lastAccess: its day, or nothing (null) when there was no access. */
  function EncodeLastAccess(t: int): string {
    if t == 0 then "" else DateText(t)
  }

  function DecodeLastAccess(v: string): int {
    if Empty(v) then 0 else ParseDate(v)
  }

  /** The form in which a structured property is stored. */
  datatype Stored = Text(string) | Flag(bool) | UriList(seq<string>) | KeyText(string) | Day(int)

  /** The text setSetting is given for a property. */
  function Encoded(v: Stored): string {
    match v
    case Text(x) => x
    case Flag(b) => if b then "true" else ""
    case UriList(us) => EncodeUris(us)
    case KeyText(k) => EncodeRsaKey(k)
    case Day(t) => EncodeLastAccess(t)
  }

  /** fixToolSettings($tool, true)'s i-th setSetting call: a reserved name with its property. */
  function Entry(f: Fields, i: nat): (string, Stored)
    requires i < 10
  {
    match i
    case 0 => ("__key", Text(f.key))
    case 1 => ("__secret", Text(f.secret))
    case 2 => ("__messageUrl", Text(f.messageUrl))
    case 3 => ("__useContentItem", Flag(f.useContentItem))
    case 4 => ("__contentItemUrl", Text(f.contentItemUrl))
    case 5 => ("__initiateLoginUrl", Text(f.initiateLoginUrl))
    case 6 => ("__redirectionUris", UriList(f.redirectionUris))
    case 7 => ("__jku", Text(f.jku))
    case 8 => ("__rsaKey", KeyText(f.rsaKey))
    case _ => ("__lastAccess", Day(f.lastAccess))
  }

  /** fixToolSettings($tool, true)'s setSetting calls, in order. */
  function Entries(f: Fields): seq<(string, Stored)> {
    seq(10, i requires 0 <= i < 10 => Entry(f, i))
  }

  /** fixToolSettings($tool, true): the bag with every structured property written under its reserved name. */
  function EncodeFields(f: Fields, s: Settings): Settings {
    SetEach(s, Entries(f), Encoded)
  }

  /** Each call writes a reserved name, and no two calls write the same one. */
  lemma EntryNames(f: Fields)
    ensures forall i :: 0 <= i < 10 ==> Entry(f, i).0 in ReservedNames
    ensures forall j, k :: 0 <= j < k < 10 ==> Entry(f, j).0 != Entry(f, k).0
  {
    ReservedNamesDistinct();
  }

  /** A reserved name reads back as its property's stored text. */
  lemma EncodedRead(f: Fields, s: Settings, i: nat)
    requires i < 10
    ensures GetSetting(EncodeFields(f, s), Entry(f, i).0, "") == Blank(Encoded(Entry(f, i).1))
  {
    EntryNames(f);
    SetEachReads(s, Entries(f), Encoded, i);
  }

  /** What the stored bag holds: the rest of the bag as before, and each reserved name's stored text. */
  lemma EncodedBag(f: Fields, s: Settings)
    ensures EncodeFields(f, s) - ReservedNames == s - ReservedNames
    ensures GetSetting(EncodeFields(f, s), "__key", "") == Blank(f.key)
    ensures GetSetting(EncodeFields(f, s), "__secret", "") == Blank(f.secret)
    ensures GetSetting(EncodeFields(f, s), "__messageUrl", "") == Blank(f.messageUrl)
    ensures GetSetting(EncodeFields(f, s), "__useContentItem", "") == if f.useContentItem then "true" else ""
    ensures GetSetting(EncodeFields(f, s), "__contentItemUrl", "") == Blank(f.contentItemUrl)
    ensures GetSetting(EncodeFields(f, s), "__initiateLoginUrl", "") == Blank(f.initiateLoginUrl)
    ensures GetSetting(EncodeFields(f, s), "__redirectionUris", "") == Blank(EncodeUris(f.redirectionUris))
    ensures GetSetting(EncodeFields(f, s), "__jku", "") == Blank(f.jku)
    ensures GetSetting(EncodeFields(f, s), "__rsaKey", "") == Blank(EncodeRsaKey(f.rsaKey))
    ensures GetSetting(EncodeFields(f, s), "__lastAccess", "") == EncodeLastAccess(f.lastAccess)
  {
    EntryNames(f);
    SetEachOutside(s, Entries(f), Encoded, ReservedNames);
    EncodedRead(f, s, 0);
    EncodedRead(f, s, 1);
    EncodedRead(f, s, 2);
    EncodedRead(f, s, 3);
    EncodedRead(f, s, 4);
    EncodedRead(f, s, 5);
    EncodedRead(f, s, 6);
    EncodedRead(f, s, 7);
    EncodedRead(f, s, 8);
    EncodedRead(f, s, 9);
    assert EncodeLastAccess(f.lastAccess) == "" || EncodeLastAccess(f.lastAccess)[0] == '@';
  }

  /** fixToolSettings($tool, false): the structured properties read back from the bag. */
  function DecodeFields(s: Settings): Fields {
    Fields(
      GetSetting(s, "__key", ""),
      GetSetting(s, "__secret", ""),
      GetSetting(s, "__messageUrl", ""),
      GetSetting(s, "__useContentItem", "") == "true",
      GetSetting(s, "__contentItemUrl", ""),
      GetSetting(s, "__initiateLoginUrl", ""),
      DecodeUris(GetSetting(s, "__redirectionUris", "")),
      GetSetting(s, "__jku", ""),
      DecodeRsaKey(GetSetting(s, "__rsaKey", "")),
      DecodeLastAccess(GetSetting(s, "__lastAccess", "")))
  }

  /** fixToolSettings($tool, false): the bag once every reserved name has been removed. */
  function StripReserved(s: Settings): Settings {
    s - ReservedNames
  }

  /** Storing the structured properties and removing them again leaves the rest of the bag as it was. */
  lemma StripEncode(f: Fields, s: Settings)
    ensures StripReserved(EncodeFields(f, s)) == StripReserved(s)
  {
    EncodedBag(f, s);
  }

  // ----- the two escaped values -----

  /** Stored `&quot;` can only come from a `"` when the JSON text had no `&quot;` of its own. */
  lemma QuoteEntityStart(c: char, t: string)
    ensures StartsWith([c] + Replace(t, Quote, QuoteEntity), QuoteEntity) ==> StartsWith([c] + t, QuoteEntity)
  {
    var r := Replace(t, Quote, QuoteEntity);
    if StartsWith([c] + r, QuoteEntity) {
      assert r[..5] == ([c] + r)[1..6];
      assert StartsWith(r, "quot;");
      ReplacedPrefix(t, Quote, QuoteEntity, "quot;");
      assert ([c] + t)[..6] == [c] + t[..5];
    }
  }

  /** Turning `"` into `&quot;` and back is the identity on text without `&quot;`. */
  lemma {:induction false} QuoteRoundTrip(j: string)
    requires !Contains(j, QuoteEntity)
    ensures Replace(Replace(j, Quote, QuoteEntity), QuoteEntity, Quote) == j
    decreases |j|
  {
    var r := Replace(j, Quote, QuoteEntity);
    if j != [] {
      var rest := j[1..];
      assert j == [j[0]] + rest;
      ContainsAppend([j[0]], rest, QuoteEntity);
      QuoteRoundTrip(rest);
      var r' := Replace(rest, Quote, QuoteEntity);
      if j[0] == '"' {
        assert j[..1] == Quote;
        assert r == QuoteEntity + r';
        ReplaceAtMatch(QuoteEntity, Quote, r');
        assert Quote + rest == j;
      } else {
        assert j[..1] != Quote;
        assert r == [j[0]] + r';
        QuoteEntityStart(j[0], rest);
        assert !StartsWith(r, QuoteEntity);
        if |r| >= |QuoteEntity| {
          assert r[1..] == r';
          assert Replace(r, QuoteEntity, Quote) == [j[0]] + Replace(r', QuoteEntity, Quote);
        } else {
          assert Replace(r', QuoteEntity, Quote) == r';
        }
      }
    }
  }

  /** The redirection URIs survive being stored, provided none of them contains `&quot;`. */
  lemma UrisRoundTrip(us: seq<string>)
    requires forall i :: 0 <= i < |us| ==> !Contains(us[i], QuoteEntity)
    ensures DecodeUris(EncodeUris(us)) == us
  {
    ListKeepsAbsent(us, QuoteEntity);
    QuoteRoundTrip(EncodeList(us));
    DecodeEncode(us);
  }

  /** After `&#10;` of a stored `&#13;&#10;`, a replacement cannot start a fresh entity. */
  lemma RsaEntityTail(t: string)
    ensures StartsWith(Replace(t, CrLf, CrLfEntity), "&#10;") ==> StartsWith(t, "&#10;")
  {
    var r := Replace(t, CrLf, CrLfEntity);
    if |t| >= 2 && t[..2] == CrLf {
      assert r == CrLfEntity + Replace(t[2..], CrLf, CrLfEntity);
      assert r[3] == '3';
    } else if |t| >= 2 && StartsWith(r, "&#10;") {
      var r' := Replace(t[1..], CrLf, CrLfEntity);
      assert r == [t[0]] + r';
      assert r'[..4] == r[1..5];
      ReplacedPrefix(t[1..], CrLf, CrLfEntity, "#10;");
      assert t[..5] == [t[0]] + t[1..][..4];
    }
  }

  /** Stored text that starts with `#13;&#10;` comes from a key that starts with it. */
  lemma RsaEntityRest(t: string)
    ensures StartsWith(Replace(t, CrLf, CrLfEntity), "#13;&#10;") ==> StartsWith(t, "#13;&#10;")
  {
    var r := Replace(t, CrLf, CrLfEntity);
    if StartsWith(r, "#13;&#10;") {
      assert StartsWith(r, "#13;") by {
        assert r[..4] == "#13;&#10;"[..4] == "#13;";
      }
      ReplacedPrefix(t, CrLf, CrLfEntity, "#13;");
      ReplaceCopiesPrefix(t, CrLf, CrLfEntity, "#13;");
      var r4 := Replace(t[4..], CrLf, CrLfEntity);
      assert StartsWith(r4, "&#10;") by {
        assert r == "#13;" + r4;
        assert r4[..5] == r[4..9] == "#13;&#10;"[4..] == "&#10;";
      }
      RsaEntityTail(t[4..]);
      assert t[..9] == t[..4] + t[4..][..5];
    }
  }

  /** Stored `&#13;&#10;` can only come from a CR LF when the key had no `&#13;&#10;` of its own. */
  lemma RsaEntityStart(c: char, t: string)
    ensures StartsWith([c] + Replace(t, CrLf, CrLfEntity), CrLfEntity) ==> StartsWith([c] + t, CrLfEntity)
  {
    var r := Replace(t, CrLf, CrLfEntity);
    if StartsWith([c] + r, CrLfEntity) {
      assert StartsWith(r, "#13;&#10;") by {
        assert r[..9] == ([c] + r)[1..10] == CrLfEntity[1..] == "#13;&#10;";
      }
      RsaEntityRest(t);
      assert ([c] + t)[..10] == [c] + t[..9];
    }
  }

  /**
   * Replacing the stored `&#13;&#10;` by any text gives what replacing the
   * original CR LF by that text gives, provided the original had no
   * `&#13;&#10;` of its own.
   */
  lemma {:induction false} CrLfEntityRoundTrip(k: string, back: string)
    requires !Contains(k, CrLfEntity)
    ensures Replace(Replace(k, CrLf, CrLfEntity), CrLfEntity, back) == Replace(k, CrLf, back)
    decreases |k|
  {
    var r := Replace(k, CrLf, CrLfEntity);
    if |k| >= 2 {
      if k[..2] == CrLf {
        var rest := k[2..];
        assert k == CrLf + rest;
        ContainsAppend(CrLf, rest, CrLfEntity);
        CrLfEntityRoundTrip(rest, back);
        assert r == CrLfEntity + Replace(rest, CrLf, CrLfEntity);
        ReplaceAtMatch(CrLfEntity, back, Replace(rest, CrLf, CrLfEntity));
        ReplaceAtMatch(CrLf, back, rest);
      } else {
        var rest := k[1..];
        assert k == [k[0]] + rest;
        ContainsAppend([k[0]], rest, CrLfEntity);
        CrLfEntityRoundTrip(rest, back);
        var r' := Replace(rest, CrLf, CrLfEntity);
        assert r == [k[0]] + r';
        RsaEntityStart(k[0], rest);
        assert !StartsWith(r, CrLfEntity);
        if |r| >= |CrLfEntity| {
          assert r[1..] == r';
          assert Replace(r, CrLfEntity, back) == [k[0]] + Replace(r', CrLfEntity, back);
        } else {
          assert Replace(r', CrLfEntity, back) == r';
        }
      }
    }
  }

  /** Turning CR LF into `&#13;&#10;` and back is the identity on a key without `&#13;&#10;`. */
  lemma RsaKeyRoundTrip(k: string)
    requires !Contains(k, CrLfEntity)
    ensures DecodeRsaKey(EncodeRsaKey(k)) == k
  {
    CrLfEntityRoundTrip(k, CrLf);
    ReplaceBySelf(k, CrLf);
  }

  /** The last access survives storage as the start of its day; no access stays no access. */
  lemma LastAccessRoundTrip(t: int)
    ensures DecodeLastAccess(EncodeLastAccess(t)) == if t == 0 then 0 else DayStart(t)
  {
    if t != 0 {
      var v := DateText(t);
      assert v[1..] == IntToString(DayStart(t));
      IntValOfString(DayStart(t));
    }
  }

  lemma DayStartIdempotent(t: int)
    ensures DayStart(DayStart(t)) == DayStart(t)
  {
  }

  /**
   * The properties a tool holds once they have been stored and read back:
   * each text as getSetting returns it (an empty text, '0' included, as ''),
   * the redirection URIs and the public key as decoded from their stored
   * text, and the last access as the start of its day.
   */
  function Reloaded(f: Fields): Fields {
    Fields(Blank(f.key), Blank(f.secret), Blank(f.messageUrl), f.useContentItem, Blank(f.contentItemUrl),
      Blank(f.initiateLoginUrl), DecodeUris(Blank(EncodeUris(f.redirectionUris))), Blank(f.jku),
      DecodeRsaKey(Blank(EncodeRsaKey(f.rsaKey))), if f.lastAccess == 0 then 0 else DayStart(f.lastAccess))
  }

  /** Storing the properties into any bag and reading them back gives Reloaded, whatever else the bag holds. */
  lemma StoredThenLoaded(f: Fields, s: Settings)
    ensures DecodeFields(EncodeFields(f, s)) == Reloaded(f)
  {
    EncodedBag(f, s);
    LastAccessRoundTrip(f.lastAccess);
  }

  /** Properties that survive storage unchanged: no '0' texts, no literal entities, day-aligned access. */
  predicate Storable(f: Fields) {
    f.key != "0" && f.secret != "0" && f.messageUrl != "0" && f.contentItemUrl != "0" &&
    f.initiateLoginUrl != "0" && f.jku != "0" && f.rsaKey != "0" &&
    !Contains(f.rsaKey, CrLfEntity) &&
    (forall i :: 0 <= i < |f.redirectionUris| ==> !Contains(f.redirectionUris[i], QuoteEntity)) &&
    f.lastAccess % SecondsPerDay == 0
  }

  /** Reading back what was stored gives the same properties. */
  lemma FieldsRoundTrip(f: Fields, s: Settings)
    requires Storable(f)
    ensures DecodeFields(EncodeFields(f, s)) == f
  {
    EncodedBag(f, s);
    UrisRoundTrip(f.redirectionUris);
    RsaKeyRoundTrip(f.rsaKey);
    LastAccessRoundTrip(f.lastAccess);
    assert EncodeList(f.redirectionUris)[0] == '[';
    assert !Empty(EncodeUris(f.redirectionUris)) by {
      assert f.redirectionUris == [] || |EncodeList(f.redirectionUris)| > 2;
    }
  }

  /** useContentItem is stored as 'true' or not at all, and read back as the same flag. */
  lemma UseContentItemRoundTrip(f: Fields, s: Settings)
    ensures DecodeFields(EncodeFields(f, s)).useContentItem == f.useContentItem
  {
    EncodedBag(f, s);
  }
}
