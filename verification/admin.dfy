/**
 * LTI_Platform_Admin's tool editor: the edit page admits only users who can
 * manage options and refuses a POST without a valid nonce; update_tool
 * copies the submitted form onto the tool, chooses the LTI version from
 * the LTI 1.3 fields, and saves the tool.
 */
module Admin {
  import opened PhpText
  import opened LtiTool
  import opened ToolSettings
  import opened DataConnector
  import opened ToolRegistry
  import opened Launch

  /** The submitted edit form, one text per field; a field that was not submitted reads as ''. */
  datatype Form = Form(
    name: string,
    code: string,
    enabled: string,
    debugMode: string,
    sendUserName: string,
    sendUserId: string,
    sendUserEmail: string,
    sendUserRole: string,
    sendUserUsername: string,
    presentationTarget: string,
    presentationWidth: string,
    presentationHeight: string,
    messageUrl: string,
    useContentItem: string,
    contentItemUrl: string,
    custom: string,
    consumerKey: string,
    sharedSecret: string,
    initiateLoginUrl: string,
    redirectionUris: string,
    jwksUrl: string,
    publicKey: string)

  /** A checkbox field is ticked when it is submitted as exactly 'true'. */
  predicate Ticked(v: string) {
    !Empty(v) && v == "true"
  }

  /** A privacy setting is stored as 'true' when ticked and removed (set to null) otherwise. */
  function Privacy(v: string): string {
    if Ticked(v) then "true" else ""
  }

  /** The custom pairs as stored: each CR LF line break written as an HTML entity. */
  function StoredCustom(custom: string): string {
    Replace(custom, CrLf, CrLfEntity)
  }

  /** The names update_tool writes into the settings bag. */
  const FormSettingNames := {"sendUserName", "sendUserId", "sendUserEmail", "sendUserRole", "sendUserUsername",
    "presentationTarget", "presentationWidth", "presentationHeight", "custom"}

  /** update_tool's i-th setSetting call. */
  function FormEntry(form: Form, i: nat): (string, string)
    requires i < 9
  {
    match i
    case 0 => ("sendUserName", Privacy(form.sendUserName))
    case 1 => ("sendUserId", Privacy(form.sendUserId))
    case 2 => ("sendUserEmail", Privacy(form.sendUserEmail))
    case 3 => ("sendUserRole", Privacy(form.sendUserRole))
    case 4 => ("sendUserUsername", Privacy(form.sendUserUsername))
    case 5 => ("presentationTarget", form.presentationTarget)
    case 6 => ("presentationWidth", form.presentationWidth)
    case 7 => ("presentationHeight", form.presentationHeight)
    case _ => ("custom", StoredCustom(form.custom))
  }

  /** update_tool's setSetting calls, in its order. */
  function FormEntries(form: Form): seq<(string, string)> {
    seq(9, i requires 0 <= i < 9 => FormEntry(form, i))
  }

  /** The settings bag after those calls. */
  function FormSettings(s: Settings, form: Form): Settings {
    SetEach(s, FormEntries(form), Verbatim)
  }

  /** The redirection URIs field: no URIs when it is blank after trimming, otherwise one per CR LF separated line. */
  function FormUris(v: string): (r: seq<string>)
    ensures Empty(Trim(v)) <==> r == []
  {
    if Empty(Trim(v)) then [] else Explode(v, CrLf)
  }

  /** The structured properties update_tool sets; the last access is kept. */
  function FormFields(form: Form, lastAccess: int): Fields {
    Fields(form.consumerKey, form.sharedSecret, form.messageUrl, Ticked(form.useContentItem), form.contentItemUrl,
      form.initiateLoginUrl, FormUris(form.redirectionUris), form.jwksUrl, form.publicKey, lastAccess)
  }

  /** The LTI version and signature method update_tool records: LTI 1.3 only with a login URL and redirection URIs. */
  function VersionFor(f: Fields): (r: (LtiVersion, string))
    ensures r.0 == Lti1p3 <==> !Empty(f.initiateLoginUrl) && |f.redirectionUris| > 0
    ensures r.1 == (if r.0 == Lti1p3 then "RS256" else "HMAC-SHA1")
  {
    if Empty(f.initiateLoginUrl) || |f.redirectionUris| == 0 then (Lti1p0, "HMAC-SHA1") else (Lti1p3, "RS256")
  }

  /** Each setting update_tool writes reads back as the value it writes, or as nothing when that value is empty. */
  lemma FormSettingsRead(s: Settings, form: Form, i: nat)
    requires i < 9
    ensures GetSetting(FormSettings(s, form), FormEntry(form, i).0, "") == Blank(FormEntry(form, i).1)
  {
    var es := FormEntries(form);
    assert es[i] == FormEntry(form, i);
    SettingNamesDistinct();
    SetEachReads(s, es, Verbatim, i);
  }

  /** A privacy setting reads back as 'true' exactly when its checkbox was ticked. */
  lemma PrivacyReadsTicked(s: Settings, form: Form)
    ensures GetSetting(FormSettings(s, form), "sendUserId", "") == "true" <==> Ticked(form.sendUserId)
    ensures GetSetting(FormSettings(s, form), "sendUserName", "") == "true" <==> Ticked(form.sendUserName)
  {
    FormSettingsRead(s, form, 0);
    FormSettingsRead(s, form, 1);
  }

  /** Settings that the form does not cover are kept as they were. */
  lemma FormSettingsKeepOthers(s: Settings, form: Form)
    ensures FormSettings(s, form) - FormSettingNames == s - FormSettingNames
  {
    var es := FormEntries(form);
    forall i | 0 <= i < |es|
      ensures es[i].0 in FormSettingNames
    {
      assert es[i] == FormEntry(form, i);
    }
    SetEachOutside(s, es, Verbatim, FormSettingNames);
  }

  /**
   * Custom pairs typed one per line reach a launch split at the line
   * breaks: what message() reads back from the stored setting, with the
   * entity turned into '&', is the typed text with each line break turned
   * into '&' (or nothing when the stored text counts as empty).
   */
  lemma CustomLinesBecomePairs(s: Settings, form: Form)
    requires !Contains(form.custom, CrLfEntity)
    ensures Replace(GetSetting(FormSettings(s, form), "custom", ""), CrLfEntity, "&") ==
      if Empty(StoredCustom(form.custom)) then "" else Replace(form.custom, CrLf, "&")
  {
    FormSettingsRead(s, form, 8);
    CrLfEntityRoundTrip(form.custom, "&");
  }

  /** A tool that the form leaves on LTI 1.0 is also signed the LTI 1.0 way when launched. */
  lemma FormLti10SignsHmac(form: Form, lastAccess: int, code: string, options: Options, siteUrl: string, blogId: int)
    requires VersionFor(FormFields(form, lastAccess)).0 == Lti1p0
    ensures PlatformFor(FormFields(form, lastAccess), code, options, siteUrl, blogId).signatureMethod == "HMAC-SHA1"
  {
  }

  /** update_tool's setSetting calls on the tool: the privacy checkboxes, then the presentation and custom fields. */
  method ApplySettings(t: Tool, form: Form)
    modifies t`settings
    ensures t.settings == FormSettings(old(t.settings), form)
  {
    t.settings := FormSettings(t.settings, form);
  }

  /**
   * update_tool's assignments to the tool's message, credential and LTI 1.3
   * properties, and the LTI version those properties allow.
   */
  method ApplyFields(t: Tool, form: Form)
    modifies t`messageUrl, t`useContentItem, t`contentItemUrl, t`key, t`secret, t`initiateLoginUrl,
      t`redirectionUris, t`jku, t`rsaKey, t`ltiVersion, t`signatureMethod
    ensures t.Structured() == FormFields(form, old(t.lastAccess))
    ensures t.ltiVersion == Some(VersionFor(t.Structured()).0) && t.signatureMethod == VersionFor(t.Structured()).1
  {
    t.messageUrl := form.messageUrl;
    t.useContentItem := Ticked(form.useContentItem);
    t.contentItemUrl := form.contentItemUrl;
    t.key := form.consumerKey;
    t.secret := form.sharedSecret;
    t.initiateLoginUrl := form.initiateLoginUrl;
    t.redirectionUris := FormUris(form.redirectionUris);
    t.jku := form.jwksUrl;
    t.rsaKey := form.publicKey;
    var version := VersionFor(t.Structured());
    t.ltiVersion := Some(version.0);
    t.signatureMethod := version.1;
  }

  /** The assignments of update_tool($tool) before it saves: the form copied onto the tool, the LTI version chosen. */
  method ApplyForm(t: Tool, form: Form)
    modifies t`name, t`code, t`enabled, t`debugMode, t`settings, t`messageUrl, t`useContentItem, t`contentItemUrl,
      t`key, t`secret, t`initiateLoginUrl, t`redirectionUris, t`jku, t`rsaKey, t`ltiVersion, t`signatureMethod
    ensures t.name == form.name && t.code == form.code && t.debugMode == Ticked(form.debugMode)
    ensures t.enabled == Ticked(form.enabled)
    ensures t.settings == FormSettings(old(t.settings), form)
    ensures t.Structured() == FormFields(form, old(t.lastAccess))
    ensures t.ltiVersion == Some(VersionFor(t.Structured()).0) && t.signatureMethod == VersionFor(t.Structured()).1
  {
    t.name := form.name;
    t.code := form.code;
    t.enabled := Ticked(form.enabled);
    t.debugMode := Ticked(form.debugMode);
    ApplySettings(t, form);
    ApplyFields(t, form);
  }

  /** update_tool($tool): the form copied onto the tool, the LTI version chosen, then save(). */
  method UpdateTool(t: Tool, form: Form, db: PostStore, listed: seq<Listed>, options: Options, currentBlog: int,
      now: int, accept: bool) returns (ok: bool)
    requires db.Valid()
    modifies t`name, t`code, t`enabled, t`debugMode, t`settings, t`messageUrl, t`useContentItem, t`contentItemUrl,
      t`key, t`secret, t`initiateLoginUrl, t`redirectionUris, t`jku, t`rsaKey, t`ltiVersion, t`signatureMethod,
      t`lastAccess, t`recordId, t`blogId, t`created, t`updated, db
    ensures db.Valid()
    ensures t.name == form.name && t.code == ToLower(form.code) && t.debugMode == Ticked(form.debugMode)
    ensures t.deleted == old(t.deleted)
    ensures var f := FormFields(form, old(t.lastAccess));
      t.ltiVersion == Some(VersionFor(f).0) && t.signatureMethod == VersionFor(f).1
    ensures var f := FormFields(form, old(t.lastAccess));
      var s := FormSettings(old(t.settings), form);
      Duplicated(listed, old(t.recordId), ToLower(form.code)) ==>
        (!ok && db.posts == old(db.posts) && t.enabled == Ticked(form.enabled))
    ensures var f := FormFields(form, old(t.lastAccess));
      var s := FormSettings(old(t.settings), form);
      !Duplicated(listed, old(t.recordId), ToLower(form.code)) ==>
        (t.enabled == (Ticked(form.enabled) && Enableable(f, options)) &&
         (ok <==> accept && (old(t.recordId) == 0 || old(t.recordId) in old(db.posts))) &&
         (ok ==> db.posts == old(db.posts)[t.recordId :=
           Post(form.name, t.code, StatusOf(t.deleted, t.enabled), EncodeFields(f, s), t.created, now)]) &&
         (!ok ==> db.posts == old(db.posts)))
  {
    ApplyForm(t, form);
    ok := Save(t, db, listed, options, currentBlog, now, accept);
  }

  /** What edit_page_html() does with a request. */
  datatype EditOutcome =
    | NoAccess
    | Shown
    | Refused(notice: string)
    | Updated(saved: bool)

  /**
   * edit_page_html(): nothing for a user without the manage_options
   * capability; the form for a GET; for a POST, the update only with a valid
   * nonce, else the error notice and no change. `t` is the tool the page
   * edits (new, or loaded by its record id).
   */
  method EditPage(t: Tool, canManageOptions: bool, isPost: bool, nonceValid: bool, form: Form, db: PostStore,
      listed: seq<Listed>, options: Options, currentBlog: int, now: int, accept: bool) returns (r: EditOutcome)
    requires db.Valid()
    modifies t, db
    ensures db.Valid()
    ensures !canManageOptions ==> r == NoAccess && unchanged(t) && unchanged(db)
    ensures canManageOptions && !isPost ==> r == Shown && unchanged(t) && unchanged(db)
    ensures canManageOptions && isPost && !nonceValid ==>
      r == Refused("Unable to save the changes.") && unchanged(t) && unchanged(db)
    ensures canManageOptions && isPost && nonceValid ==>
      r.Updated? && t.name == form.name && t.code == ToLower(form.code) &&
      t.debugMode == Ticked(form.debugMode) && t.deleted == old(t.deleted)
    ensures canManageOptions && isPost && nonceValid ==>
      var f := FormFields(form, old(t.lastAccess));
      t.ltiVersion == Some(VersionFor(f).0) && t.signatureMethod == VersionFor(f).1
    ensures canManageOptions && isPost && nonceValid && Duplicated(listed, old(t.recordId), ToLower(form.code)) ==>
      r == Updated(false) && db.posts == old(db.posts) && t.enabled == Ticked(form.enabled)
    ensures canManageOptions && isPost && nonceValid && !Duplicated(listed, old(t.recordId), ToLower(form.code)) ==>
      var f := FormFields(form, old(t.lastAccess));
      var s := FormSettings(old(t.settings), form);
      t.enabled == (Ticked(form.enabled) && Enableable(f, options)) &&
      (r == Updated(true) <==> accept && (old(t.recordId) == 0 || old(t.recordId) in old(db.posts))) &&
      (r == Updated(true) ==> db.posts == old(db.posts)[t.recordId :=
        Post(form.name, t.code, StatusOf(t.deleted, t.enabled), EncodeFields(f, s), t.created, now)]) &&
      (r == Updated(false) ==> db.posts == old(db.posts))
  {
    if !canManageOptions {
      return NoAccess;
    }
    if !isPost {
      return Shown;
    }
    if !nonceValid {
      return Refused("Unable to save the changes.");
    }
    var saved := UpdateTool(t, form, db, listed, options, currentBlog, now, accept);
    r := Updated(saved);
  }
}
