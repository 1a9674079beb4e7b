/**
 * The plugin's tool record (LTI_Platform_Tool): the fields the plugin reads
 * and writes, the settings bag kept beside them, the defaults a new tool
 * takes from the plugin options, and the two gates that decide whether a
 * tool may be enabled.
 */
module LtiTool {
  import opened PhpText

  /** A tool's settings bag: a PHP array of named string values. */
  type Settings = map<string, string>

  /** The plugin's option array (the network or site option 'lti-platform-settings'). */
  type Options = map<string, string>

  /** getSetting($name, $default): the stored value, or the default when none is stored. */
  function GetSetting(s: Settings, name: string, default: string): string {
    if name in s then s[name] else default
  }

  /** What getSetting returns for a value stored with setSetting. */
  function Blank(v: string): string {
    if Empty(v) then "" else v
  }

  /** setSetting($name, $value): an empty value (null, '' or '0') removes the setting. */
  function SetSetting(s: Settings, name: string, value: string): (r: Settings)
    ensures GetSetting(r, name, "") == Blank(value)
    ensures r - {name} == s - {name}
    ensures forall n :: n != name ==> GetSetting(r, n, "") == GetSetting(s, n, "")
  {
    if Empty(value) then s - {name} else s[name := value]
  }

  /** isset($options[$name]) && ($options[$name] === 'true'). */
  predicate OptionTrue(o: Options, name: string) {
    name in o && o[name] == "true"
  }

  /** !empty($options[$name]). */
  predicate OptionSet(o: Options, name: string) {
    name in o && !Empty(o[name])
  }

  /** getOption($name, $default): a key that is present wins, even when its value is empty. */
  function GetOption(o: Options, name: string, default: string): string
  {
    if name in o then o[name] else default
  }

  function TrueOrFalse(b: bool): string {
    if b then "true" else "false"
  }

  /** A presentation option when it is set, otherwise ''. */
  function OptionOrBlank(o: Options, name: string): string {
    if OptionSet(o, name) then o[name] else ""
  }

  /**
   * getOption against the `!empty` test the constructor uses: they agree on a
   * set option, but an option present with an empty value is returned by
   * getOption (not its default) while `!empty` treats it as unset.
   */
  lemma GetOptionAgainstOptionSet(o: Options, name: string, default: string)
    ensures OptionSet(o, name) ==> GetOption(o, name, default) == OptionOrBlank(o, name)
    ensures name in o && Empty(o[name]) ==>
      !OptionSet(o, name) && GetOption(o, name, default) == o[name] && OptionOrBlank(o, name) == ""
    ensures name !in o ==> !OptionSet(o, name) && GetOption(o, name, default) == default
  {
  }

  /** setSetting applied to each (name, value) entry in turn, the value written as `text` gives it. */
  function SetEach<V>(s: Settings, es: seq<(string, V)>, text: V -> string): Settings
    decreases |es|
  {
    if es == [] then s else SetEach(SetSetting(s, es[0].0, text(es[0].1)), es[1..], text)
  }

  /** Setting entries whose names all lie in `names` changes nothing outside `names`. */
  lemma {:induction false} SetEachOutside<V>(s: Settings, es: seq<(string, V)>, text: V -> string, names: set<string>)
    requires forall i :: 0 <= i < |es| ==> es[i].0 in names
    ensures SetEach(s, es, text) - names == s - names
    decreases |es|
  {
    if es != [] {
      var s1 := SetSetting(s, es[0].0, text(es[0].1));
      SetEachOutside(s1, es[1..], text, names);
      assert s1 - names == (s1 - {es[0].0}) - names;
      assert s - names == (s - {es[0].0}) - names;
    }
  }

  /** A name that no entry sets reads the same before and after. */
  lemma {:induction false} SetEachUntouched<V>(s: Settings, es: seq<(string, V)>, text: V -> string, n: string)
    requires forall i :: 0 <= i < |es| ==> es[i].0 != n
    ensures GetSetting(SetEach(s, es, text), n, "") == GetSetting(s, n, "")
    decreases |es|
  {
    if es != [] {
      SetEachUntouched(SetSetting(s, es[0].0, text(es[0].1)), es[1..], text, n);
    }
  }

  /** An entry whose name no later entry repeats reads back as its text, or as nothing when that text is empty. */
  lemma {:induction false} SetEachReads<V>(s: Settings, es: seq<(string, V)>, text: V -> string, i: nat)
    requires i < |es| && forall j :: i < j < |es| ==> es[j].0 != es[i].0
    ensures GetSetting(SetEach(s, es, text), es[i].0, "") == Blank(text(es[i].1))
    decreases |es|
  {
    var s1 := SetSetting(s, es[0].0, text(es[0].1));
    if i == 0 {
      SetEachUntouched(s1, es[1..], text, es[0].0);
    } else {
      SetEachReads(s1, es[1..], text, i - 1);
    }
  }

  function Verbatim(v: string): string { v }

  /** The constructor's i-th setSetting call. */
  function DefaultEntry(o: Options, i: nat): (string, string)
    requires i < 8
  {
    match i
    case 0 => ("sendUserName", TrueOrFalse(OptionTrue(o, "sendusername")))
    case 1 => ("sendUserId", TrueOrFalse(OptionTrue(o, "senduserid")))
    case 2 => ("sendUserEmail", TrueOrFalse(OptionTrue(o, "senduseremail")))
    case 3 => ("sendUserRole", TrueOrFalse(OptionTrue(o, "senduserrole")))
    case 4 => ("sendUserUsername", TrueOrFalse(OptionTrue(o, "senduserusername")))
    case 5 => ("presentationTarget", OptionOrBlank(o, "presentationtarget"))
    case 6 => ("presentationWidth", OptionOrBlank(o, "presentationwidth"))
    case _ => ("presentationHeight", OptionOrBlank(o, "presentationheight"))
  }

  /** The constructor's setSetting calls, in order. */
  function DefaultEntries(o: Options): seq<(string, string)> {
    seq(8, i requires 0 <= i < 8 => DefaultEntry(o, i))
  }

  /** The settings bag a new tool starts with. */
  function DefaultSettings(o: Options): Settings {
    SetEach(map[], DefaultEntries(o), Verbatim)
  }

  /** The setting names of equal length differ at one position. */
  lemma SettingNamesDistinct()
    ensures "sendUserName" != "sendUserRole"
    ensures "presentationTarget" != "presentationHeight"
  {
    assert "sendUserName"[8] != "sendUserRole"[8];
    assert "presentationTarget"[12] != "presentationHeight"[12];
  }

  lemma DefaultRead(o: Options, i: nat)
    requires i < |DefaultEntries(o)|
    ensures GetSetting(DefaultSettings(o), DefaultEntries(o)[i].0, "") == Blank(DefaultEntries(o)[i].1)
  {
    SettingNamesDistinct();
    SetEachReads(map[], DefaultEntries(o), Verbatim, i);
  }

  /** A new tool's flags are 'true' or 'false' by the plugin options, and its presentation settings the options' values. */
  lemma DefaultSettingsRead(o: Options)
    ensures GetSetting(DefaultSettings(o), "sendUserName", "") == TrueOrFalse(OptionTrue(o, "sendusername"))
    ensures GetSetting(DefaultSettings(o), "sendUserId", "") == TrueOrFalse(OptionTrue(o, "senduserid"))
    ensures GetSetting(DefaultSettings(o), "sendUserEmail", "") == TrueOrFalse(OptionTrue(o, "senduseremail"))
    ensures GetSetting(DefaultSettings(o), "sendUserRole", "") == TrueOrFalse(OptionTrue(o, "senduserrole"))
    ensures GetSetting(DefaultSettings(o), "sendUserUsername", "") == TrueOrFalse(OptionTrue(o, "senduserusername"))
    ensures GetSetting(DefaultSettings(o), "presentationTarget", "") == OptionOrBlank(o, "presentationtarget")
    ensures GetSetting(DefaultSettings(o), "presentationWidth", "") == OptionOrBlank(o, "presentationwidth")
    ensures GetSetting(DefaultSettings(o), "presentationHeight", "") == OptionOrBlank(o, "presentationheight")
  {
    DefaultRead(o, 0);
    DefaultRead(o, 1);
    DefaultRead(o, 2);
    DefaultRead(o, 3);
    DefaultRead(o, 4);
    DefaultRead(o, 5);
    DefaultRead(o, 6);
    DefaultRead(o, 7);
  }

  datatype LtiVersion = Lti1p0 | Lti1p3

  /** The tool properties that the data connector stores inside the settings bag. */
  datatype Fields = Fields(
    key: string,
    secret: string,
    messageUrl: string,
    useContentItem: bool,
    contentItemUrl: string,
    initiateLoginUrl: string,
    redirectionUris: seq<string>,
    jku: string,
    rsaKey: string,
    lastAccess: int)

  class Tool {
    /** The post id of the tool's record; 0 until it is first saved (PHP null). */
    var recordId: nat
    var blogId: int
    var name: string
    var code: string
    var enabled: bool
    var deleted: bool
    var debugMode: bool
    var key: string
    var secret: string
    var messageUrl: string
    var useContentItem: bool
    var contentItemUrl: string
    var initiateLoginUrl: string
    var redirectionUris: seq<string>
    var jku: string
    var rsaKey: string
    /** Unix time of the last launch; 0 when there has been none (PHP null). */
    var lastAccess: int
    var created: int
    var updated: int
    var ltiVersion: Option<LtiVersion>
    var signatureMethod: string
    var settings: Settings

    /** new LTI_Platform_Tool(): an unsaved, disabled tool with the option-derived settings. */
    constructor(options: Options)
      ensures recordId == 0 && !enabled && !deleted && !debugMode
      ensures name == "" && code == "" && created == 0 && updated == 0
      ensures Structured() == Fields("", "", "", false, "", "", [], "", "", 0)
      ensures ltiVersion == None && signatureMethod == ""
      ensures settings == DefaultSettings(options)
    {
      recordId, blogId, name, code := 0, 0, "", "";
      enabled, deleted, debugMode := false, false, false;
      key, secret, messageUrl := "", "", "";
      useContentItem, contentItemUrl, initiateLoginUrl := false, "", "";
      redirectionUris, jku, rsaKey, lastAccess := [], "", "", 0;
      created, updated := 0, 0;
      ltiVersion, signatureMethod := None, "";
      settings := DefaultSettings(options);
    }

    function Structured(): Fields
      reads this
    {
      Fields(key, secret, messageUrl, useContentItem, contentItemUrl, initiateLoginUrl,
        redirectionUris, jku, rsaKey, lastAccess)
    }

    /** canUseLTI13(): the tool and the platform are both configured for LTI 1.3. */
    predicate CanUseLti13(options: Options)
      reads this
    {
      Lti13Configured(Structured(), options)
    }

    /** canBeEnabled(): a message URL, and either LTI 1.0 credentials or LTI 1.3. */
    predicate CanBeEnabled(options: Options)
      reads this
    {
      Enableable(Structured(), options)
    }
  }

  /** The condition of canUseLTI13 on a tool's properties and the platform options. */
  predicate Lti13Configured(f: Fields, options: Options) {
    !Empty(f.initiateLoginUrl) && |f.redirectionUris| > 0 &&
    OptionSet(options, "kid") && OptionSet(options, "privatekey")
  }

  /** The condition of canBeEnabled on a tool's properties and the platform options. */
  predicate Enableable(f: Fields, options: Options) {
    !Empty(f.messageUrl) && ((!Empty(f.key) && !Empty(f.secret)) || Lti13Configured(f, options))
  }

  /** A tool without a message URL can never be enabled, whatever else it has. */
  lemma NoMessageUrlNoEnable(t: Tool, options: Options)
    requires Empty(t.messageUrl)
    ensures !t.CanBeEnabled(options)
  {
  }

  /** With a message URL, a tool that can use LTI 1.3 can be enabled without an LTI 1.0 key or secret. */
  lemma Lti13EnablesWithoutSecret(t: Tool, options: Options)
    requires !Empty(t.messageUrl) && t.CanUseLti13(options)
    ensures t.CanBeEnabled(options)
  {
  }

  /** Without a key id or private key in the options, only LTI 1.0 credentials can enable a tool. */
  lemma WithoutPlatformKeyNeedsSecret(t: Tool, options: Options)
    requires !OptionSet(options, "kid") || !OptionSet(options, "privatekey")
    ensures t.CanBeEnabled(options) <==> !Empty(t.messageUrl) && !Empty(t.key) && !Empty(t.secret)
  {
  }
}
