/**
 * LTI_Platform_Public::message and its helpers: a launch (or a content-item
 * request) resolves the link's shortcode attributes on the post, runs a
 * chain of checks in which the first failure wins, builds the message
 * parameters, and records at most one access per day on the tool.
 */
module Launch {
  import opened PhpText
  import opened LtiTool
  import opened ToolSettings
  import opened DataConnector
  import opened ToolRegistry
  import opened CustomParams
  import opened Shortcode

  // ----- get_link_atts -----

  /** A shortcode whose non-empty id attribute is the requested id. */
  predicate Matches(a: Atts, id: string) {
    "id" in a && !Empty(a["id"]) && a["id"] == id
  }

  /** The first shortcode at or after `from` that matches the id. */
  function FirstMatch(scs: seq<Atts>, id: string, from: nat): (r: Option<nat>)
    ensures r.Some? ==> from <= r.value < |scs| && Matches(scs[r.value], id)
    ensures r.Some? ==> forall j :: from <= j < r.value ==> !Matches(scs[j], id)
    ensures r.None? ==> forall j :: from <= j < |scs| ==> !Matches(scs[j], id)
    decreases |scs| - from
  {
    if from >= |scs| then None
    else if Matches(scs[from], id) then Some(from)
    else FirstMatch(scs, id, from + 1)
  }

  /** Every value with `&amp;` turned back into `&`. */
  function Unescaped(a: Atts): Atts {
    map k | k in a :: Replace(a[k], "&amp;", "&")
  }

  /**
   * get_link_atts($post, $id): the attributes of the first shortcode whose id
   * matches, without the id when a second shortcode matches too, with
   * `&amp;` unescaped; nothing when no shortcode matches.
   */
  function LinkAttsOf(scs: seq<Atts>, id: string): Atts {
    match FirstMatch(scs, id, 0)
    case None => map[]
    case Some(i) => Unescaped(if FirstMatch(scs, id, i + 1).Some? then scs[i] - {"id"} else scs[i])
  }

  /** The loops of get_link_atts: the scan that stops at a second match, then the unescaping of each value. */
  method GetLinkAtts(scs: seq<Atts>, id: string) returns (linkAtts: Atts)
    ensures linkAtts == LinkAttsOf(scs, id)
  {
    linkAtts := map[];
    ghost var first: Option<nat> := None;
    ghost var second := false;
    var i := 0;
    while i < |scs|
      invariant 0 <= i <= |scs|
      invariant first.None? ==> linkAtts == map[] && forall j :: 0 <= j < i ==> !Matches(scs[j], id)
      invariant first.Some? ==> (first == FirstMatch(scs, id, 0) && first.value < i &&
        linkAtts == scs[first.value] && forall j :: first.value < j < i ==> !Matches(scs[j], id))
    {
      if Matches(scs[i], id) {
        if linkAtts == map[] {
          linkAtts := scs[i];
          first := Some(i);
          assert FirstMatch(scs, id, 0) == first;
        } else {
          assert FirstMatch(scs, id, first.value + 1) == Some(i);
          linkAtts := linkAtts - {"id"};
          second := true;
          break;
        }
      }
      i := i + 1;
    }
    assert !second ==> first.None? || FirstMatch(scs, id, first.value + 1).None?;
    ghost var found := linkAtts;
    assert found == match FirstMatch(scs, id, 0)
      case None => map[]
      case Some(f) => if FirstMatch(scs, id, f + 1).Some? then scs[f] - {"id"} else scs[f];
    var pending := linkAtts.Keys;
    while pending != {}
      invariant pending <= found.Keys && linkAtts.Keys == found.Keys
      invariant forall k :: k in found && k !in pending ==> linkAtts[k] == Replace(found[k], "&amp;", "&")
      invariant forall k :: k in pending ==> linkAtts[k] == found[k]
      decreases pending
    {
      var k :| k in pending;
      linkAtts := linkAtts[k := Replace(linkAtts[k], "&amp;", "&")];
      pending := pending - {k};
    }
    assert linkAtts == Unescaped(found);
  }

  /** When two shortcodes carry the requested id, the resolved attributes have no id. */
  lemma DuplicateIdDropped(scs: seq<Atts>, id: string, i: nat, j: nat)
    requires i < j < |scs| && Matches(scs[i], id) && Matches(scs[j], id)
    ensures "id" !in LinkAttsOf(scs, id)
  {
    var f := FirstMatch(scs, id, 0).value;
    assert FirstMatch(scs, id, f + 1).Some?;
  }

  /** When exactly one shortcode carries the requested id, its attributes are used, id included. */
  lemma SingleMatchKept(scs: seq<Atts>, id: string, i: nat)
    requires i < |scs| && Matches(scs[i], id)
    requires forall j :: 0 <= j < |scs| && j != i ==> !Matches(scs[j], id)
    ensures LinkAttsOf(scs, id) == Unescaped(scs[i])
    ensures "id" in LinkAttsOf(scs, id)
  {
    assert FirstMatch(scs, id, 0) == Some(i);
    assert FirstMatch(scs, id, i + 1).None?;
  }

  // ----- the checks of message() -----

  /** The post of the `post` request parameter, when the user may read it: its id, title and shortcodes. */
  datatype PostRef = PostRef(id: nat, title: string, shortcodes: seq<Atts>)

  /**
   * The first three checks: a readable post; for a launch an `id` request
   * parameter and a tool in the linked shortcode; for a content-item
   * request a `tool` request parameter, which becomes the only attribute.
   */
  function LinkVerdict(post: Option<PostRef>, getId: string, getTool: string, deeplink: bool): (r: Result<Atts>)
    ensures post.None? ==> r == Failure("Missing or invalid post attribute in link")
    ensures r.Success? ==> !Empty(Lookup(r.value, "tool"))
    ensures r.Success? && !deeplink ==> r.value == LinkAttsOf(post.value.shortcodes, getId) && !Empty(getId)
    ensures r.Success? && deeplink ==> r.value == map["tool" := getTool]
  {
    if post.None? then Failure("Missing or invalid post attribute in link")
    else if !deeplink && Empty(getId) then Failure("Missing id attribute in link")
    else if !deeplink then
      var linkAtts := LinkAttsOf(post.value.shortcodes, getId);
      if Empty(Lookup(linkAtts, "tool")) then Failure("No tool specified") else Success(linkAtts)
    else if Empty(getTool) then Failure("Missing tool attribute in link")
    else Success(map["tool" := getTool])
  }

  /** The launch's target: the link's, else the tool's setting, else 'window'. */
  function LaunchTarget(linkAtts: Atts, settings: Settings): string {
    if !Empty(Lookup(linkAtts, "target")) then Lookup(linkAtts, "target")
    else GetSetting(settings, "presentationTarget", "window")
  }

  /**
   * The URL the message goes to: the tool's message URL; a relative url
   * attribute appended to it; an absolute one only when it starts with it.
   */
  function ResolveUrl(att: string, messageUrl: string): (r: Result<string>)
    ensures r.Success? ==> StartsWith(r.value, messageUrl)
    ensures r.Failure? <==> !Empty(att) && Contains(att, "://") && !StartsWith(att, messageUrl)
    ensures r.Failure? ==> r.error == "Invalid url attribute"
  {
    if Empty(att) then Success(messageUrl)
    else if !Contains(att, "://") then
      assert (messageUrl + att)[..|messageUrl|] == messageUrl;
      Success(messageUrl + att)
    else if StartsWith(att, messageUrl) then Success(att)
    else Failure("Invalid url attribute")
  }

  /** Where a message goes: its presentation target and URL. */
  datatype Route = Route(target: string, url: string)

  /** The checks made once the tool is known: a unique id (launches only), the target, the URL. */
  function ToolVerdict(deeplink: bool, linkAtts: Atts, settings: Settings, messageUrl: string): (r: Result<Route>)
    ensures r.Success? ==> ValidTarget(r.value.target) && r.value.target == LaunchTarget(linkAtts, settings)
    ensures r.Success? ==> StartsWith(r.value.url, messageUrl)
    ensures !deeplink && Empty(Lookup(linkAtts, "id")) ==> r == Failure("Duplicate id attribute in link")
  {
    if !deeplink && Empty(Lookup(linkAtts, "id")) then Failure("Duplicate id attribute in link")
    else
      var target := LaunchTarget(linkAtts, settings);
      if !ValidTarget(target) then Failure("Invalid target specified")
      else match ResolveUrl(Lookup(linkAtts, "url"), messageUrl)
        case Failure(e) => Failure(e)
        case Success(url) => Success(Route(target, url))
  }

  /** A link whose id two shortcodes share is refused. */
  lemma DuplicateLinkRefused(post: PostRef, getId: string, i: nat, j: nat, settings: Settings, messageUrl: string)
    requires i < j < |post.shortcodes| && Matches(post.shortcodes[i], getId) && Matches(post.shortcodes[j], getId)
    requires LinkVerdict(Some(post), getId, "", false).Success?
    ensures ToolVerdict(false, LinkVerdict(Some(post), getId, "", false).value, settings, messageUrl) ==
      Failure("Duplicate id attribute in link")
  {
    DuplicateIdDropped(post.shortcodes, getId, i, j);
  }

  /** With no target on the link or the tool, a launch opens in a window. */
  lemma WindowByDefault(linkAtts: Atts, settings: Settings)
    requires Empty(Lookup(linkAtts, "target")) && "presentationTarget" !in settings
    ensures LaunchTarget(linkAtts, settings) == "window"
  {
  }

  /** The outcome message() reaches once the tool is looked up. */
  ghost function Planned(post: Option<PostRef>, getId: string, getTool: string, deeplink: bool,
      tool: Option<Post>): (r: Result<(Atts, Route)>)
    ensures r.Success? ==> LinkVerdict(post, getId, getTool, deeplink).Success? && tool.Some?
  {
    match LinkVerdict(post, getId, getTool, deeplink)
    case Failure(e) => Failure(e)
    case Success(linkAtts) =>
      match tool
      case None => Failure("Tool not found")
      case Some(p) =>
        match ToolVerdict(deeplink, linkAtts, StripReserved(p.content), DecodeFields(p.content).messageUrl)
        case Failure(e) => Failure(e)
        case Success(route) => Success((linkAtts, route))
  }

  // ----- the message parameters -----

  /** A message's parameters, by name (the order in which they were added is not modelled). */
  type Params = map<string, string>

  /** What message() reads of the blog: get_bloginfo values and the site URL. */
  datatype Blog = Blog(version: string, name: string, description: string, siteUrl: string, adminEmail: string)

  /** The current WordPress user, and whether it has the manage_options capability. */
  datatype User = User(id: nat, displayName: string, firstName: string, lastName: string, email: string,
    login: string, canManageOptions: bool)

  const InstructorRole := "urn:lti:instrole:ims/lis/Instructor"
  const LearnerRole := "urn:lti:instrole:ims/lis/Learner"

  function MessageType(deeplink: bool): string {
    if deeplink then "ContentItemSelectionRequest" else "basic-lti-launch-request"
  }

  /** The parameters every message carries; a pop-up is announced as a window. */
  function BaseParams(post: PostRef, target: string, blog: Blog): Params {
    map[
      "context_id" := NatToString(post.id),
      "context_title" := post.title,
      "context_type" := "CourseSection",
      "launch_presentation_document_target" := if target != "popup" then target else "window",
      "tool_consumer_info_product_family_code" := "WordPress",
      "tool_consumer_info_version" := blog.version,
      "tool_consumer_instance_name" := blog.name,
      "tool_consumer_instance_description" := blog.description,
      "tool_consumer_instance_url" := blog.siteUrl,
      "tool_consumer_instance_contact_email" := blog.adminEmail]
  }

  function GuidParams(p: Params, options: Options): Params {
    if OptionSet(options, "platformguid") then p["tool_consumer_instance_guid" := options["platformguid"]] else p
  }

  /** The resource link's title: the link's title attribute, else the tool code. */
  function Title(linkAtts: Atts): string {
    if !Empty(Lookup(linkAtts, "title")) then Lookup(linkAtts, "title") else Lookup(linkAtts, "tool")
  }

  /** Where a tool returns selected content: the site URL with the plugin's query and the encoded tool code. */
  function ReturnUrl(siteUrl: string, code: string): string {
    siteUrl + "/?lti-platform&content&tool=" + UrlEncode(code)
  }

  /** The parameters of the message type: a resource link launch, or a content-item selection request. */
  function TypeParams(p: Params, deeplink: bool, post: PostRef, linkAtts: Atts, siteUrl: string): Params {
    if !deeplink then
      p["resource_link_id" := NatToString(post.id) + "-" + Lookup(linkAtts, "id")]
       ["resource_link_title" := Title(linkAtts)]
    else
      p["accept_media_types" := "application/vnd.ims.lti.v1.ltilink,*/*"]
       ["accept_multiple" := "false"]
       ["accept_presentation_document_targets" := "embed,frame,iframe,window,popup"]
       ["content_item_return_url" := ReturnUrl(siteUrl, Lookup(linkAtts, "tool"))]
  }

  /** A launch width or height: the link's attribute read by intval when set, else the tool's setting. */
  function LaunchSize(att: string, setting: string): (r: string)
    ensures !Empty(att) ==> IntVal(r) == IntVal(att)
    ensures Empty(att) ==> r == setting
  {
    if !Empty(att) then IntValOfString(IntVal(att)); IntToString(IntVal(att)) else setting
  }

  /** The size parameters, sent for the targets other than a window and only when not empty. */
  function SizeParams(p: Params, target: string, linkAtts: Atts, settings: Settings): Params {
    if target == "popup" || target == "iframe" || target == "embed" then
      var width := LaunchSize(Lookup(linkAtts, "width"), GetSetting(settings, "presentationWidth", ""));
      var p' := if !Empty(width) then p["launch_presentation_width" := width] else p;
      var height := LaunchSize(Lookup(linkAtts, "height"), GetSetting(settings, "presentationHeight", ""));
      if !Empty(height) then p'["launch_presentation_height" := height] else p'
    else p
  }

  /** A privacy setting allows sending: it is exactly 'true'. */
  predicate Sends(settings: Settings, name: string) {
    GetSetting(settings, name, "false") == "true"
  }

  function RoleOf(user: User): string {
    if user.canManageOptions then InstructorRole else LearnerRole
  }

  /** The parts of the user's name that are not empty. */
  function NameParams(p: Params, user: User): Params {
    var p1 := if !Empty(user.displayName) then p["lis_person_name_full" := user.displayName] else p;
    var p2 := if !Empty(user.firstName) then p1["lis_person_name_given" := user.firstName] else p1;
    if !Empty(user.lastName) then p2["lis_person_name_family" := user.lastName] else p2
  }

  /** The user's details, each only when the tool's privacy setting allows it, in the order message() writes them. */
  function UserDetails(settings: Settings, user: User): Params {
    var p1: Params := if Sends(settings, "sendUserId") then map["user_id" := NatToString(user.id)] else map[];
    var p2 := if Sends(settings, "sendUserName") then NameParams(p1, user) else p1;
    var p3 := if Sends(settings, "sendUserEmail") then p2["lis_person_contact_email_primary" := user.email] else p2;
    var p4 := if Sends(settings, "sendUserRole") then p3["roles" := RoleOf(user)] else p3;
    if Sends(settings, "sendUserUsername") then p4["ext_username" := user.login] else p4
  }

  /**
   * The parameters with the user's details written over them; no earlier
   * stage writes a user detail's name, so writing them one by one is the union.
   */
  function UserParams(p: Params, settings: Settings, user: User): Params {
    p + UserDetails(settings, user)
  }

  /** The link's custom pairs (separated by ';'), then the tool's (separated by stored line breaks). */
  function CustomStage(p: Params, linkAtts: Atts, settings: Settings): Params {
    var p' := if !Empty(Lookup(linkAtts, "custom")) then
      AddCustom(p, ParseStr(Replace(Lookup(linkAtts, "custom"), ";", "&"))) else p;
    var toolCustom := GetSetting(settings, "custom", "");
    if !Empty(toolCustom) then AddCustom(p', ParseStr(Replace(toolCustom, CrLfEntity, "&"))) else p'
  }

  /** The parameters before the user's details. */
  function PriorParams(post: PostRef, linkAtts: Atts, target: string, settings: Settings, options: Options,
      blog: Blog, deeplink: bool): Params
  {
    SizeParams(TypeParams(GuidParams(BaseParams(post, target, blog), options), deeplink, post, linkAtts, blog.siteUrl),
      target, linkAtts, settings)
  }

  /** message()'s parameters for a checked link, its target and the tool's settings. */
  function LaunchParams(post: PostRef, linkAtts: Atts, target: string, settings: Settings, options: Options,
      blog: Blog, user: User, deeplink: bool): Params
  {
    CustomStage(UserParams(PriorParams(post, linkAtts, target, settings, options, blog, deeplink), settings, user),
      linkAtts, settings)
  }

  /** A name that differs from "custom_" within its first seven characters does not start with it. */
  lemma NotCustom(k: string, i: nat)
    requires i < 7 && i < |k| && k[i] != "custom_"[i]
    ensures !StartsWith(k, "custom_")
  {
  }

  lemma GuidKeeps(p: Params, options: Options, k: string)
    requires k != "tool_consumer_instance_guid"
    ensures (k in GuidParams(p, options) <==> k in p) && (k in p ==> GuidParams(p, options)[k] == p[k])
  {
  }

  lemma TypeKeeps(p: Params, deeplink: bool, post: PostRef, linkAtts: Atts, siteUrl: string, k: string)
    requires k != "resource_link_id" && k != "resource_link_title" && k != "accept_media_types"
    requires k != "accept_multiple" && k != "accept_presentation_document_targets" && k != "content_item_return_url"
    ensures var q := TypeParams(p, deeplink, post, linkAtts, siteUrl);
      (k in q <==> k in p) && (k in p ==> q[k] == p[k])
  {
  }

  lemma SizeKeeps(p: Params, target: string, linkAtts: Atts, settings: Settings, k: string)
    requires k != "launch_presentation_width" && k != "launch_presentation_height"
    ensures var q := SizeParams(p, target, linkAtts, settings);
      (k in q <==> k in p) && (k in p ==> q[k] == p[k])
  {
  }

  /** The size stage's own width entry, when the earlier stages left none. */
  lemma SizeWidth(p: Params, target: string, linkAtts: Atts, settings: Settings)
    requires "launch_presentation_width" !in p
    ensures var q := SizeParams(p, target, linkAtts, settings);
      var w := LaunchSize(Lookup(linkAtts, "width"), GetSetting(settings, "presentationWidth", ""));
      ("launch_presentation_width" in q <==> (target == "popup" || target == "iframe" || target == "embed") && !Empty(w)) &&
      ("launch_presentation_width" in q ==> q["launch_presentation_width"] == w)
  {
  }

  /** The base, guid and type stages never write a size or, for a launch, a return URL. */
  lemma TypeLacks(post: PostRef, linkAtts: Atts, target: string, options: Options, blog: Blog, deeplink: bool, k: string)
    requires k == "launch_presentation_width" || (k == "content_item_return_url" && !deeplink)
    ensures k !in TypeParams(GuidParams(BaseParams(post, target, blog), options), deeplink, post, linkAtts, blog.siteUrl)
  {
    GuidKeeps(BaseParams(post, target, blog), options, k);
  }

  /** The names the user stage may write. */
  predicate UserKey(k: string) {
    k == "user_id" || k == "lis_person_name_full" || k == "lis_person_name_given" ||
    k == "lis_person_name_family" || k == "lis_person_contact_email_primary" || k == "roles" ||
    k == "ext_username"
  }

  lemma UserKeeps(p: Params, settings: Settings, user: User, k: string)
    requires !UserKey(k)
    ensures var q := UserParams(p, settings, user);
      (k in q <==> k in p) && (k in p ==> q[k] == p[k])
  {
  }

  /** A name that none of the guid, type and size stages writes keeps its base value. */
  lemma PriorKeeps(post: PostRef, linkAtts: Atts, target: string, settings: Settings, options: Options,
      blog: Blog, deeplink: bool, k: string)
    requires k != "tool_consumer_instance_guid"
    requires k != "resource_link_id" && k != "resource_link_title" && k != "accept_media_types"
    requires k != "accept_multiple" && k != "accept_presentation_document_targets" && k != "content_item_return_url"
    requires k != "launch_presentation_width" && k != "launch_presentation_height"
    ensures var q := PriorParams(post, linkAtts, target, settings, options, blog, deeplink);
      var b := BaseParams(post, target, blog);
      (k in q <==> k in b) && (k in b ==> q[k] == b[k])
  {
    var g := GuidParams(BaseParams(post, target, blog), options);
    var t := TypeParams(g, deeplink, post, linkAtts, blog.siteUrl);
    GuidKeeps(BaseParams(post, target, blog), options, k);
    TypeKeeps(g, deeplink, post, linkAtts, blog.siteUrl, k);
    SizeKeeps(t, target, linkAtts, settings, k);
  }

  /** Custom pairs never add or change a parameter whose name does not start with custom_. */
  lemma CustomStageKeeps(p: Params, linkAtts: Atts, settings: Settings, k: string)
    requires !StartsWith(k, "custom_")
    ensures k in CustomStage(p, linkAtts, settings) <==> k in p
    ensures k in p ==> CustomStage(p, linkAtts, settings)[k] == p[k]
  {
    var p' := if !Empty(Lookup(linkAtts, "custom")) then
      AddCustom(p, ParseStr(Replace(Lookup(linkAtts, "custom"), ";", "&"))) else p;
    assert (k in p' <==> k in p) && (k in p ==> p'[k] == p[k]) by {
      CustomOnlyAddsCustom(p, ParseStr(Replace(Lookup(linkAtts, "custom"), ";", "&")), k);
    }
    CustomOnlyAddsCustom(p', ParseStr(Replace(GetSetting(settings, "custom", ""), CrLfEntity, "&")), k);
  }

  /** A parameter that only the base stage writes reaches the message unchanged. */
  lemma BaseSent(post: PostRef, linkAtts: Atts, target: string, settings: Settings, options: Options,
      blog: Blog, user: User, deeplink: bool, k: string)
    requires k in BaseParams(post, target, blog) && !UserKey(k)
    requires !StartsWith(k, "custom_")
    requires k != "tool_consumer_instance_guid"
    requires k != "resource_link_id" && k != "resource_link_title" && k != "accept_media_types"
    requires k != "accept_multiple" && k != "accept_presentation_document_targets" && k != "content_item_return_url"
    requires k != "launch_presentation_width" && k != "launch_presentation_height"
    ensures var ps := LaunchParams(post, linkAtts, target, settings, options, blog, user, deeplink);
      k in ps && ps[k] == BaseParams(post, target, blog)[k]
  {
    var prior := PriorParams(post, linkAtts, target, settings, options, blog, deeplink);
    PriorKeeps(post, linkAtts, target, settings, options, blog, deeplink, k);
    UserKeeps(prior, settings, user, k);
    CustomStageKeeps(UserParams(prior, settings, user), linkAtts, settings, k);
  }

  /** A parameter of the type, guid or size stages reaches the message as those stages left it. */
  lemma PriorSent(post: PostRef, linkAtts: Atts, target: string, settings: Settings, options: Options,
      blog: Blog, user: User, deeplink: bool, k: string)
    requires !UserKey(k) && !StartsWith(k, "custom_")
    ensures var ps := LaunchParams(post, linkAtts, target, settings, options, blog, user, deeplink);
      var prior := PriorParams(post, linkAtts, target, settings, options, blog, deeplink);
      (k in ps <==> k in prior) && (k in prior ==> ps[k] == prior[k])
  {
    var prior := PriorParams(post, linkAtts, target, settings, options, blog, deeplink);
    UserKeeps(prior, settings, user, k);
    CustomStageKeeps(UserParams(prior, settings, user), linkAtts, settings, k);
  }

  /** A parameter of the message-type stage reaches the message as that stage left it. */
  lemma TypeSent(post: PostRef, linkAtts: Atts, target: string, settings: Settings, options: Options,
      blog: Blog, user: User, deeplink: bool, k: string)
    requires !UserKey(k) && !StartsWith(k, "custom_")
    requires k != "launch_presentation_width" && k != "launch_presentation_height"
    ensures var ps := LaunchParams(post, linkAtts, target, settings, options, blog, user, deeplink);
      var t := TypeParams(GuidParams(BaseParams(post, target, blog), options), deeplink, post, linkAtts, blog.siteUrl);
      (k in ps <==> k in t) && (k in t ==> ps[k] == t[k])
  {
    PriorSent(post, linkAtts, target, settings, options, blog, user, deeplink, k);
    var t := TypeParams(GuidParams(BaseParams(post, target, blog), options), deeplink, post, linkAtts, blog.siteUrl);
    SizeKeeps(t, target, linkAtts, settings, k);
  }

  /** The tool code in a return URL is URL-encoded, so it cannot add or end query parameters. */
  lemma ReturnUrlEncoded(code: string)
    ensures '&' !in UrlEncode(code) && '=' !in UrlEncode(code)
  {
    var e := UrlEncode(code);
    assert forall i :: 0 <= i < |e| ==> e[i] != '&' && e[i] != '=';
  }

  /** A user detail reaches the message exactly as the user stage writes it. */
  lemma UserSent(post: PostRef, linkAtts: Atts, target: string, settings: Settings, options: Options,
      blog: Blog, user: User, deeplink: bool, k: string)
    requires k !in BaseParams(post, target, blog) && k != "tool_consumer_instance_guid"
    requires k != "resource_link_id" && k != "resource_link_title" && k != "accept_media_types"
    requires k != "accept_multiple" && k != "accept_presentation_document_targets" && k != "content_item_return_url"
    requires k != "launch_presentation_width" && k != "launch_presentation_height"
    requires !StartsWith(k, "custom_")
    ensures var ps := LaunchParams(post, linkAtts, target, settings, options, blog, user, deeplink);
      var u := UserDetails(settings, user);
      (k in ps <==> k in u) && (k in u ==> ps[k] == u[k])
  {
    PriorKeeps(post, linkAtts, target, settings, options, blog, deeplink, k);
    var prior := PriorParams(post, linkAtts, target, settings, options, blog, deeplink);
    CustomStageKeeps(UserParams(prior, settings, user), linkAtts, settings, k);
  }

  /** The user stage's own entries, as the privacy settings gate them. */
  lemma UserIdDetail(settings: Settings, user: User)
    ensures var u := UserDetails(settings, user);
      ("user_id" in u <==> Sends(settings, "sendUserId")) && ("user_id" in u ==> u["user_id"] == NatToString(user.id))
  {
  }

  lemma EmailDetail(settings: Settings, user: User)
    ensures var u := UserDetails(settings, user);
      ("lis_person_contact_email_primary" in u <==> Sends(settings, "sendUserEmail")) &&
      ("lis_person_contact_email_primary" in u ==> u["lis_person_contact_email_primary"] == user.email)
  {
  }

  lemma RoleDetail(settings: Settings, user: User)
    ensures var u := UserDetails(settings, user);
      ("roles" in u <==> Sends(settings, "sendUserRole")) && ("roles" in u ==> u["roles"] == RoleOf(user))
  {
  }

  lemma UsernameDetail(settings: Settings, user: User)
    ensures var u := UserDetails(settings, user);
      ("ext_username" in u <==> Sends(settings, "sendUserUsername")) && ("ext_username" in u ==> u["ext_username"] == user.login)
  {
  }

  lemma FullNameDetail(settings: Settings, user: User)
    ensures var u := UserDetails(settings, user);
      ("lis_person_name_full" in u <==> Sends(settings, "sendUserName") && !Empty(user.displayName)) &&
      ("lis_person_name_full" in u ==> u["lis_person_name_full"] == user.displayName)
  {
  }

  lemma GivenNameDetail(settings: Settings, user: User)
    ensures var u := UserDetails(settings, user);
      ("lis_person_name_given" in u <==> Sends(settings, "sendUserName") && !Empty(user.firstName)) &&
      ("lis_person_name_given" in u ==> u["lis_person_name_given"] == user.firstName)
  {
  }

  lemma FamilyNameDetail(settings: Settings, user: User)
    ensures var u := UserDetails(settings, user);
      ("lis_person_name_family" in u <==> Sends(settings, "sendUserName") && !Empty(user.lastName)) &&
      ("lis_person_name_family" in u ==> u["lis_person_name_family"] == user.lastName)
  {
  }

  /** The user id is sent exactly when the tool's sendUserId setting is 'true'. */
  lemma UserIdGated(post: PostRef, linkAtts: Atts, target: string, settings: Settings, options: Options,
      blog: Blog, user: User, deeplink: bool)
    ensures var ps := LaunchParams(post, linkAtts, target, settings, options, blog, user, deeplink);
      ("user_id" in ps <==> Sends(settings, "sendUserId")) &&
      (Sends(settings, "sendUserId") ==> ps["user_id"] == NatToString(user.id))
  {
    NotCustom("user_id", 0);
    UserSent(post, linkAtts, target, settings, options, blog, user, deeplink, "user_id");
    UserIdDetail(settings, user);
  }

  /** The email address is sent exactly when sendUserEmail is 'true'. */
  lemma EmailGated(post: PostRef, linkAtts: Atts, target: string, settings: Settings, options: Options,
      blog: Blog, user: User, deeplink: bool)
    ensures var ps := LaunchParams(post, linkAtts, target, settings, options, blog, user, deeplink);
      ("lis_person_contact_email_primary" in ps <==> Sends(settings, "sendUserEmail")) &&
      (Sends(settings, "sendUserEmail") ==> ps["lis_person_contact_email_primary"] == user.email)
  {
    NotCustom("lis_person_contact_email_primary", 0);
    UserSent(post, linkAtts, target, settings, options, blog, user, deeplink, "lis_person_contact_email_primary");
    EmailDetail(settings, user);
  }

  /** The role is sent exactly when sendUserRole is 'true': Instructor for a user who can manage options, else Learner. */
  lemma RoleGated(post: PostRef, linkAtts: Atts, target: string, settings: Settings, options: Options,
      blog: Blog, user: User, deeplink: bool)
    ensures var ps := LaunchParams(post, linkAtts, target, settings, options, blog, user, deeplink);
      ("roles" in ps <==> Sends(settings, "sendUserRole")) &&
      (Sends(settings, "sendUserRole") ==>
        ps["roles"] == if user.canManageOptions then InstructorRole else LearnerRole)
  {
    NotCustom("roles", 0);
    UserSent(post, linkAtts, target, settings, options, blog, user, deeplink, "roles");
    RoleDetail(settings, user);
  }

  /** The login name is sent exactly when sendUserUsername is 'true'. */
  lemma UsernameGated(post: PostRef, linkAtts: Atts, target: string, settings: Settings, options: Options,
      blog: Blog, user: User, deeplink: bool)
    ensures var ps := LaunchParams(post, linkAtts, target, settings, options, blog, user, deeplink);
      ("ext_username" in ps <==> Sends(settings, "sendUserUsername")) &&
      (Sends(settings, "sendUserUsername") ==> ps["ext_username"] == user.login)
  {
    NotCustom("ext_username", 0);
    UserSent(post, linkAtts, target, settings, options, blog, user, deeplink, "ext_username");
    UsernameDetail(settings, user);
  }

  /** The given name is sent only when sendUserName is 'true' and the name is not empty. */
  lemma GivenNameGated(post: PostRef, linkAtts: Atts, target: string, settings: Settings, options: Options,
      blog: Blog, user: User, deeplink: bool)
    ensures var ps := LaunchParams(post, linkAtts, target, settings, options, blog, user, deeplink);
      ("lis_person_name_given" in ps <==> Sends(settings, "sendUserName") && !Empty(user.firstName)) &&
      ("lis_person_name_given" in ps ==> ps["lis_person_name_given"] == user.firstName)
  {
    NotCustom("lis_person_name_given", 0);
    UserSent(post, linkAtts, target, settings, options, blog, user, deeplink, "lis_person_name_given");
    GivenNameDetail(settings, user);
  }

  /** The full name is sent only when sendUserName is 'true' and the display name is not empty. */
  lemma FullNameGated(post: PostRef, linkAtts: Atts, target: string, settings: Settings, options: Options,
      blog: Blog, user: User, deeplink: bool)
    ensures var ps := LaunchParams(post, linkAtts, target, settings, options, blog, user, deeplink);
      ("lis_person_name_full" in ps <==> Sends(settings, "sendUserName") && !Empty(user.displayName)) &&
      ("lis_person_name_full" in ps ==> ps["lis_person_name_full"] == user.displayName)
  {
    NotCustom("lis_person_name_full", 0);
    UserSent(post, linkAtts, target, settings, options, blog, user, deeplink, "lis_person_name_full");
    FullNameDetail(settings, user);
  }

  /** The family name is sent only when sendUserName is 'true' and the name is not empty. */
  lemma FamilyNameGated(post: PostRef, linkAtts: Atts, target: string, settings: Settings, options: Options,
      blog: Blog, user: User, deeplink: bool)
    ensures var ps := LaunchParams(post, linkAtts, target, settings, options, blog, user, deeplink);
      ("lis_person_name_family" in ps <==> Sends(settings, "sendUserName") && !Empty(user.lastName)) &&
      ("lis_person_name_family" in ps ==> ps["lis_person_name_family"] == user.lastName)
  {
    NotCustom("lis_person_name_family", 0);
    UserSent(post, linkAtts, target, settings, options, blog, user, deeplink, "lis_person_name_family");
    FamilyNameDetail(settings, user);
  }

  /** The width is sent for a pop-up, frame or embedded target, when the link's or tool's width is not empty. */
  lemma WidthSent(post: PostRef, linkAtts: Atts, target: string, settings: Settings, options: Options,
      blog: Blog, user: User, deeplink: bool)
    ensures var ps := LaunchParams(post, linkAtts, target, settings, options, blog, user, deeplink);
      var w := LaunchSize(Lookup(linkAtts, "width"), GetSetting(settings, "presentationWidth", ""));
      ("launch_presentation_width" in ps <==> (target == "popup" || target == "iframe" || target == "embed") && !Empty(w)) &&
      ("launch_presentation_width" in ps ==> ps["launch_presentation_width"] == w)
  {
    NotCustom("launch_presentation_width", 0);
    PriorSent(post, linkAtts, target, settings, options, blog, user, deeplink, "launch_presentation_width");
    TypeLacks(post, linkAtts, target, options, blog, deeplink, "launch_presentation_width");
    SizeWidth(TypeParams(GuidParams(BaseParams(post, target, blog), options), deeplink, post, linkAtts, blog.siteUrl),
      target, linkAtts, settings);
  }

  /** Every message names the post as its context. */
  lemma ContextSent(post: PostRef, linkAtts: Atts, target: string, settings: Settings, options: Options,
      blog: Blog, user: User, deeplink: bool)
    ensures var ps := LaunchParams(post, linkAtts, target, settings, options, blog, user, deeplink);
      "context_id" in ps && ps["context_id"] == NatToString(post.id)
  {
    NotCustom("context_id", 2);
    BaseSent(post, linkAtts, target, settings, options, blog, user, deeplink, "context_id");
  }

  /** A pop-up is announced to the tool as a window; the other targets as themselves. */
  lemma PopupSentAsWindow(post: PostRef, linkAtts: Atts, target: string, settings: Settings, options: Options,
      blog: Blog, user: User, deeplink: bool)
    ensures var ps := LaunchParams(post, linkAtts, target, settings, options, blog, user, deeplink);
      "launch_presentation_document_target" in ps &&
      ps["launch_presentation_document_target"] == (if target == "popup" then "window" else target)
  {
    NotCustom("launch_presentation_document_target", 0);
    BaseSent(post, linkAtts, target, settings, options, blog, user, deeplink, "launch_presentation_document_target");
  }

  /** The instance GUID is sent exactly when the platformguid option is set. */
  lemma GuidSentIffSet(post: PostRef, linkAtts: Atts, target: string, settings: Settings, options: Options,
      blog: Blog, user: User, deeplink: bool)
    ensures var ps := LaunchParams(post, linkAtts, target, settings, options, blog, user, deeplink);
      ("tool_consumer_instance_guid" in ps <==> OptionSet(options, "platformguid")) &&
      (OptionSet(options, "platformguid") ==> ps["tool_consumer_instance_guid"] == options["platformguid"])
  {
    NotCustom("tool_consumer_instance_guid", 0);
    PriorSent(post, linkAtts, target, settings, options, blog, user, deeplink, "tool_consumer_instance_guid");
    var g := GuidParams(BaseParams(post, target, blog), options);
    TypeKeeps(g, deeplink, post, linkAtts, blog.siteUrl, "tool_consumer_instance_guid");
    SizeKeeps(TypeParams(g, deeplink, post, linkAtts, blog.siteUrl), target, linkAtts, settings,
      "tool_consumer_instance_guid");
  }

  /** A resource link launch names the link by post id, '-' and link id. */
  lemma LinkIdSent(post: PostRef, linkAtts: Atts, target: string, settings: Settings, options: Options,
      blog: Blog, user: User)
    ensures var ps := LaunchParams(post, linkAtts, target, settings, options, blog, user, false);
      "resource_link_id" in ps && ps["resource_link_id"] == NatToString(post.id) + "-" + Lookup(linkAtts, "id")
  {
    NotCustom("resource_link_id", 0);
    TypeSent(post, linkAtts, target, settings, options, blog, user, false, "resource_link_id");
  }

  /** A launch's link title is the title attribute, else the tool code (never the link text). */
  lemma LinkTitleSent(post: PostRef, linkAtts: Atts, target: string, settings: Settings, options: Options,
      blog: Blog, user: User)
    ensures var ps := LaunchParams(post, linkAtts, target, settings, options, blog, user, false);
      "resource_link_title" in ps &&
      ps["resource_link_title"] == if !Empty(Lookup(linkAtts, "title")) then Lookup(linkAtts, "title")
        else Lookup(linkAtts, "tool")
  {
    NotCustom("resource_link_title", 0);
    TypeSent(post, linkAtts, target, settings, options, blog, user, false, "resource_link_title");
  }

  /** A launch carries no content-item return URL. */
  lemma LaunchHasNoReturnUrl(post: PostRef, linkAtts: Atts, target: string, settings: Settings, options: Options,
      blog: Blog, user: User)
    ensures "content_item_return_url" !in LaunchParams(post, linkAtts, target, settings, options, blog, user, false)
  {
    NotCustom("content_item_return_url", 1);
    TypeSent(post, linkAtts, target, settings, options, blog, user, false, "content_item_return_url");
    TypeLacks(post, linkAtts, target, options, blog, false, "content_item_return_url");
  }

  /** A content-item request asks for a single item. */
  lemma DeepLinkSingleItem(post: PostRef, linkAtts: Atts, target: string, settings: Settings, options: Options,
      blog: Blog, user: User)
    ensures var ps := LaunchParams(post, linkAtts, target, settings, options, blog, user, true);
      "accept_multiple" in ps && ps["accept_multiple"] == "false"
  {
    NotCustom("accept_multiple", 0);
    TypeSent(post, linkAtts, target, settings, options, blog, user, true, "accept_multiple");
  }

  /** A content-item request gives the return URL with the URL-encoded tool code. */
  lemma DeepLinkReturnUrl(post: PostRef, linkAtts: Atts, target: string, settings: Settings, options: Options,
      blog: Blog, user: User)
    ensures var ps := LaunchParams(post, linkAtts, target, settings, options, blog, user, true);
      "content_item_return_url" in ps &&
      ps["content_item_return_url"] == blog.siteUrl + "/?lti-platform&content&tool=" + UrlEncode(Lookup(linkAtts, "tool"))
  {
    NotCustom("content_item_return_url", 1);
    TypeSent(post, linkAtts, target, settings, options, blog, user, true, "content_item_return_url");
  }

  /** A content-item request carries no resource link. */
  lemma DeepLinkHasNoResourceLink(post: PostRef, linkAtts: Atts, target: string, settings: Settings, options: Options,
      blog: Blog, user: User)
    ensures "resource_link_id" !in LaunchParams(post, linkAtts, target, settings, options, blog, user, true)
  {
    NotCustom("resource_link_id", 0);
    TypeSent(post, linkAtts, target, settings, options, blog, user, true, "resource_link_id");
    GuidKeeps(BaseParams(post, target, blog), options, "resource_link_id");
  }

  /**
   * The tool's custom pairs are written last, so a pair whose normalised
   * name no later tool pair repeats is sent with its value, whatever the link
   * or the earlier stages put under that name.
   */
  lemma ToolCustomWins(post: PostRef, linkAtts: Atts, target: string, settings: Settings, options: Options,
      blog: Blog, user: User, deeplink: bool, i: nat)
    requires !Empty(GetSetting(settings, "custom", ""))
    requires var pairs := ParseStr(Replace(GetSetting(settings, "custom", ""), CrLfEntity, "&"));
      i < |pairs| && !Empty(CustomName(pairs[i].0)) &&
      forall j :: i < j < |pairs| ==> CustomName(pairs[j].0) != CustomName(pairs[i].0)
    ensures var pairs := ParseStr(Replace(GetSetting(settings, "custom", ""), CrLfEntity, "&"));
      var ps := LaunchParams(post, linkAtts, target, settings, options, blog, user, deeplink);
      "custom_" + CustomName(pairs[i].0) in ps && ps["custom_" + CustomName(pairs[i].0)] == pairs[i].1
  {
    var pairs := ParseStr(Replace(GetSetting(settings, "custom", ""), CrLfEntity, "&"));
    var p := UserParams(PriorParams(post, linkAtts, target, settings, options, blog, deeplink), settings, user);
    var p' := if !Empty(Lookup(linkAtts, "custom")) then
      AddCustom(p, ParseStr(Replace(Lookup(linkAtts, "custom"), ";", "&"))) else p;
    LastPairWins(p', Named(pairs), i);
  }

  // ----- the platform object and the end of a launch -----

  /** What get_platform() sets on the platform object that signs a message or answers a request. */
  datatype PlatformConfig = PlatformConfig(key: string, secret: string, platformId: string, clientId: string,
    deploymentId: string, ltiVersion: LtiVersion, signatureMethod: string, kid: string, rsaKey: string)

  /**
   * get_platform() for a tool: its credentials and code, the site URL and
   * blog id, the platform key from the options, and LTI 1.3 with RS256
   * exactly when the tool can use LTI 1.3, LTI 1.0 with HMAC-SHA1 otherwise.
   */
  function PlatformFor(f: Fields, code: string, options: Options, siteUrl: string, blogId: int): (r: PlatformConfig)
    ensures r.ltiVersion == Lti1p3 <==> Lti13Configured(f, options)
    ensures r.signatureMethod == (if r.ltiVersion == Lti1p3 then "RS256" else "HMAC-SHA1")
    ensures r.clientId == code && r.key == f.key && r.secret == f.secret && r.platformId == siteUrl
    ensures r.deploymentId == IntToString(blogId)
    ensures r.kid == Lookup(options, "kid") && r.rsaKey == Lookup(options, "privatekey")
  {
    var lti13 := Lti13Configured(f, options);
    PlatformConfig(f.key, f.secret, siteUrl, code, IntToString(blogId),
      if lti13 then Lti1p3 else Lti1p0, if lti13 then "RS256" else "HMAC-SHA1",
      Lookup(options, "kid"), Lookup(options, "privatekey"))
  }

  /** Without both platform keys in the options, every tool is signed the LTI 1.0 way. */
  lemma NoPlatformKeyMeansLti10(f: Fields, code: string, options: Options, siteUrl: string, blogId: int)
    requires Empty(Lookup(options, "kid")) || Empty(Lookup(options, "privatekey"))
    ensures PlatformFor(f, code, options, siteUrl, blogId).signatureMethod == "HMAC-SHA1"
  {
  }

  /**
   * handleRequest(): an LTI 1.3 request from a tool is answered with the
   * platform of the tool its client_id names, when that tool exists and has
   * been saved (a non-zero creation time); otherwise "Tool not found.".
   */
  method HandleRequest(clientId: string, multisite: bool, network: PostStore, site: PostStore, currentBlog: int,
      options: Options, siteUrl: string) returns (r: Result<PlatformConfig>)
    ensures r.Success? <==> (!Empty(clientId) && Posted(multisite, network, site, clientId).Some? &&
      Posted(multisite, network, site, clientId).value.dateGmt != 0)
    ensures r.Failure? ==> r.error == "Tool not found."
    ensures r.Success? ==> r.value == PlatformFor(DecodeFields(Posted(multisite, network, site, clientId).value.content),
      clientId, options, siteUrl, currentBlog)
  {
    var ok := !Empty(clientId);
    var tool: Tool? := null;
    if ok {
      tool := FromCode(clientId, multisite, network, site, currentBlog, options);
      ok := tool != null && tool.created != 0;
    }
    if ok {
      r := Success(PlatformFor(tool.Structured(), tool.code, options, siteUrl, currentBlog));
    } else {
      r := Failure("Tool not found.");
    }
  }

  /**
   * The daily check of message() as written, under PHP 8: `date('Y-m-d', null)`
   * formats the current time, so for a tool with no last access (0 here) the
   * check compares today with today. Away from that case it is the day test.
   */
  function AccessCheckAsWritten(last: int, now: int): (r: bool)
    ensures last != 0 ==> (r <==> DayStart(now) != DayStart(last))
    ensures r ==> last != 0
  {
    var lastDay := if last == 0 then DayStart(now) else DayStart(last);
    DayStart(now) != lastDay
  }

  /**
   * A tool that has never been launched never has its access recorded by the
   * check as written, on any day; the intended day test records it on any
   * day after the first day of 1970.
   */
  lemma FirstAccessNeverRecorded(now: int)
    ensures !AccessCheckAsWritten(0, now)
    ensures now >= SecondsPerDay ==> DayStart(now) != DayStart(0)
  {
  }

  /**
   * Whether the end of a successful message() persists the tool: the day of
   * its last access is not today, and save() accepts it (no other listed
   * tool has its lowered code, the write succeeds, and the record is new or
   * still exists).
   */
  predicate AccessSaved(last: int, now: int, listed: seq<Listed>, recordId: nat, code: string, accept: bool,
      posts: map<nat, Post>)
  {
    DayStart(now) != DayStart(last) && !Duplicated(listed, recordId, ToLower(code)) && accept &&
    (recordId == 0 || recordId in posts)
  }

  /**
   * Under the intended day test a tool never launched is persisted on its
   * first launch on any day after the first day of 1970, whenever save()
   * accepts it.
   */
  lemma FirstAccessRecorded(now: int, listed: seq<Listed>, recordId: nat, code: string, accept: bool,
      posts: map<nat, Post>)
    requires now >= SecondsPerDay
    ensures AccessSaved(0, now, listed, recordId, code, accept, posts) <==>
      !Duplicated(listed, recordId, ToLower(code)) && accept && (recordId == 0 || recordId in posts)
  {
    FirstAccessNeverRecorded(now);
  }

  /**
   * The end of a successful message(): when today differs from the day of
   * the tool's last access (a tool never launched counts as last launched on
   * the first day of 1970), the last access becomes the start of today and
   * the tool is saved (a save that fails is ignored). `saved` says whether
   * the save was made and succeeded.
   */
  method RecordAccess(t: Tool, now: int, db: PostStore, listed: seq<Listed>, options: Options, currentBlog: int,
      accept: bool) returns (saved: bool)
    requires db.Valid()
    modifies t`code, t`enabled, t`settings, t`key, t`secret, t`messageUrl, t`useContentItem,
      t`contentItemUrl, t`initiateLoginUrl, t`redirectionUris, t`jku, t`rsaKey, t`lastAccess,
      t`recordId, t`blogId, t`created, t`updated, db
    ensures db.Valid()
    ensures DayStart(now) == DayStart(old(t.lastAccess)) ==> !saved && unchanged(t) && unchanged(db)
    ensures DayStart(t.lastAccess) == DayStart(now)
    ensures saved ==> (DayStart(now) != DayStart(old(t.lastAccess)) && t.updated == now &&
      db.posts == old(db.posts)[t.recordId := Post(t.name, t.code, StatusOf(t.deleted, t.enabled),
        EncodeFields(old(t.Structured()).(lastAccess := DayStart(now)), old(t.settings)), t.created, now)])
    ensures !saved ==> db.posts == old(db.posts)
    ensures saved == AccessSaved(old(t.lastAccess), now, listed, old(t.recordId), old(t.code), accept, old(db.posts))
  {
    saved := false;
    if DayStart(now) != DayStart(t.lastAccess) {
      ghost var s := t.settings;
      t.lastAccess := DayStart(now);
      ghost var f := t.Structured();
      assert f == old(t.Structured()).(lastAccess := DayStart(now));
      DayStartIdempotent(now);
      saved := Save(t, db, listed, options, currentBlog, now, accept);
    }
  }

  /**
   * message()'s parameter building: the fixed stages, then the two loops
   * that copy the link's and then the tool's custom pairs.
   */
  method BuildParams(post: PostRef, linkAtts: Atts, target: string, settings: Settings, options: Options,
      blog: Blog, user: User, deeplink: bool) returns (params: Params)
    ensures params == LaunchParams(post, linkAtts, target, settings, options, blog, user, deeplink)
  {
    params := UserParams(PriorParams(post, linkAtts, target, settings, options, blog, deeplink), settings, user);
    if !Empty(Lookup(linkAtts, "custom")) {
      params := AddCustomParams(params, ParseStr(Replace(Lookup(linkAtts, "custom"), ";", "&")));
    }
    if !Empty(GetSetting(settings, "custom", "")) {
      params := AddCustomParams(params, ParseStr(Replace(GetSetting(settings, "custom", ""), CrLfEntity, "&")));
    }
  }

  /** How message() ends: an error page with its reason (and debug flag), or a message sent to the tool. */
  datatype Outcome =
    | Failed(reason: string, debug: bool)
    | Sent(url: string, messageType: string, params: Params, platform: PlatformConfig)

  /** The tool post a link names, once the link's checks pass. */
  ghost function LinkedTool(post: Option<PostRef>, getId: string, getTool: string, deeplink: bool,
      multisite: bool, network: PostStore, site: PostStore): (r: Option<Post>)
    reads network, site
    ensures r.Some? ==> (LinkVerdict(post, getId, getTool, deeplink).Success? &&
      r.value.slug == Lookup(LinkVerdict(post, getId, getTool, deeplink).value, "tool"))
  {
    match LinkVerdict(post, getId, getTool, deeplink)
    case Failure(_) => None
    case Success(linkAtts) => Posted(multisite, network, site, Lookup(linkAtts, "tool"))
  }

  /** The record id of the tool post a link names, once the link's checks pass. */
  ghost function LinkedId(post: Option<PostRef>, getId: string, getTool: string, deeplink: bool,
      multisite: bool, network: PostStore, site: PostStore): (r: Option<nat>)
    reads network, site
    ensures r.Some? <==> LinkedTool(post, getId, getTool, deeplink, multisite, network, site).Some?
  {
    match LinkVerdict(post, getId, getTool, deeplink)
    case Failure(_) => None
    case Success(linkAtts) =>
      match Resolve(multisite, network, site, Lookup(linkAtts, "tool"))
      case Some(found) => Some(found.id)
      case None => None
  }

  /** The message a planned launch sends. */
  ghost function Expected(post: PostRef, linkAtts: Atts, route: Route, tool: Post, options: Options, blog: Blog,
      user: User, deeplink: bool, currentBlog: int): Outcome
  {
    Sent(route.url, MessageType(deeplink),
      LaunchParams(post, linkAtts, route.target, StripReserved(tool.content), options, blog, user, deeplink),
      PlatformFor(DecodeFields(tool.content), tool.slug, options, blog.siteUrl, currentBlog))
  }

  /**
   * The checks of message($deeplink) in order: the link, the tool lookup,
   * then the tool-dependent checks; the first failure gives the reason.
   * The debug flag is the tool's once a launch has found its tool; a loaded
   * tool's debug mode is off here, since the library's stored properties
   * are not read back.
   */
  method CheckLaunch(post: Option<PostRef>, getId: string, getTool: string, deeplink: bool, multisite: bool,
      network: PostStore, site: PostStore, currentBlog: int, options: Options)
    returns (checked: Result<(Atts, Route)>, tool: Tool?, debug: bool)
    ensures var toolPost := LinkedTool(post, getId, getTool, deeplink, multisite, network, site);
      checked == Planned(post, getId, getTool, deeplink, toolPost) &&
      (tool != null <==> toolPost.Some?) &&
      (tool != null ==> (tool.code == toolPost.value.slug &&
        tool.settings == StripReserved(toolPost.value.content) &&
        tool.Structured() == DecodeFields(toolPost.value.content) && !tool.debugMode))
    ensures tool != null ==> tool.recordId == LinkedId(post, getId, getTool, deeplink, multisite, network, site).value
    ensures tool != null ==> fresh(tool)
    ensures debug == (!deeplink && tool != null && tool.debugMode)
  {
    tool := null;
    debug := false;
    var verdict := LinkVerdict(post, getId, getTool, deeplink);
    if verdict.Failure? {
      checked := Failure(verdict.error);
      return;
    }
    var linkAtts := verdict.value;
    tool := FromCode(Lookup(linkAtts, "tool"), multisite, network, site, currentBlog, options);
    if tool == null {
      checked := Failure("Tool not found");
      return;
    }
    if !deeplink {
      debug := tool.debugMode;
    }
    match ToolVerdict(deeplink, linkAtts, tool.settings, tool.messageUrl)
    case Failure(e) =>
      checked := Failure(e);
    case Success(route) =>
      checked := Success((linkAtts, route));
  }

  /**
   * message($deeplink): on a failed check an error page with its reason and
   * debug flag; otherwise the parameters are built, the message is sent
   * through the tool's platform, and the access is recorded in `db`, the
   * store of the tool's own blog.
   */
  method Message(post: Option<PostRef>, getId: string, getTool: string, deeplink: bool, multisite: bool,
      network: PostStore, site: PostStore, db: PostStore, currentBlog: int, options: Options, blog: Blog,
      user: User, now: int, listed: seq<Listed>, accept: bool) returns (out: Outcome, tool: Tool?, recorded: bool)
    requires db.Valid()
    modifies db
    ensures db.Valid()
    ensures var toolPost := old(LinkedTool(post, getId, getTool, deeplink, multisite, network, site));
      var plan := Planned(post, getId, getTool, deeplink, toolPost);
      plan.Failure? ==> (out == Failed(plan.error, !deeplink && tool != null && tool.debugMode) &&
        (tool != null <==> toolPost.Some?) &&
        (tool != null ==> tool.code == toolPost.value.slug && !tool.debugMode) &&
        !recorded && db.posts == old(db.posts))
    ensures var toolPost := old(LinkedTool(post, getId, getTool, deeplink, multisite, network, site));
      var plan := Planned(post, getId, getTool, deeplink, toolPost);
      plan.Success? ==> (tool != null && DayStart(tool.lastAccess) == DayStart(now) &&
        out == Expected(post.value, plan.value.0, plan.value.1, toolPost.value, options, blog, user, deeplink, currentBlog) &&
        recorded == AccessSaved(DecodeFields(toolPost.value.content).lastAccess, now, listed,
          old(LinkedId(post, getId, getTool, deeplink, multisite, network, site)).value, toolPost.value.slug,
          accept, old(db.posts)) &&
        (recorded ==> db.posts == old(db.posts)[tool.recordId := Post(tool.name, tool.code,
          StatusOf(tool.deleted, tool.enabled),
          EncodeFields(DecodeFields(toolPost.value.content).(lastAccess := DayStart(now)),
            StripReserved(toolPost.value.content)), tool.created, now)]) &&
        (!recorded ==> db.posts == old(db.posts)))
  {
    recorded := false;
    ghost var toolPost := LinkedTool(post, getId, getTool, deeplink, multisite, network, site);
    ghost var plan := Planned(post, getId, getTool, deeplink, toolPost);
    ghost var id := LinkedId(post, getId, getTool, deeplink, multisite, network, site);
    var checked, debug;
    checked, tool, debug := CheckLaunch(post, getId, getTool, deeplink, multisite, network, site, currentBlog, options);
    assert checked == plan;
    if checked.Failure? {
      out := Failed(checked.error, debug);
      return;
    }
    out, recorded := SendAndRecord(post.value, checked.value.0, checked.value.1, tool, toolPost.value, id.value, db,
      currentBlog,
      options, blog, user, deeplink, now, listed, accept);
  }

  /**
   * The end of a successful message(): the parameters are built and the
   * message sent through the platform of `tool`, loaded from post `p`; then
   * the access is recorded.
   */
  method SendAndRecord(post: PostRef, linkAtts: Atts, route: Route, tool: Tool, ghost p: Post, ghost id: nat,
      db: PostStore,
      currentBlog: int, options: Options, blog: Blog, user: User, deeplink: bool, now: int, listed: seq<Listed>,
      accept: bool) returns (out: Outcome, recorded: bool)
    requires db.Valid()
    requires tool.recordId == id && tool.code == p.slug && tool.settings == StripReserved(p.content) &&
      tool.Structured() == DecodeFields(p.content)
    modifies tool`code, tool`enabled, tool`settings, tool`key, tool`secret, tool`messageUrl, tool`useContentItem,
      tool`contentItemUrl, tool`initiateLoginUrl, tool`redirectionUris, tool`jku, tool`rsaKey, tool`lastAccess,
      tool`recordId, tool`blogId, tool`created, tool`updated, db
    ensures db.Valid()
    ensures DayStart(tool.lastAccess) == DayStart(now)
    ensures out == Expected(post, linkAtts, route, p, options, blog, user, deeplink, currentBlog)
    ensures recorded == AccessSaved(DecodeFields(p.content).lastAccess, now, listed, id, p.slug,
      accept, old(db.posts))
    ensures recorded ==> db.posts == old(db.posts)[tool.recordId := Post(tool.name, tool.code,
      StatusOf(tool.deleted, tool.enabled),
      EncodeFields(DecodeFields(p.content).(lastAccess := DayStart(now)), StripReserved(p.content)), tool.created, now)]
    ensures !recorded ==> db.posts == old(db.posts)
  {
    var params := BuildParams(post, linkAtts, route.target, tool.settings, options, blog, user, deeplink);
    out := Sent(route.url, MessageType(deeplink), params,
      PlatformFor(tool.Structured(), tool.code, options, blog.siteUrl, currentBlog));
    recorded := RecordAccess(tool, now, db, listed, options, currentBlog, accept);
  }

  /** message() does not look at a tool's status: a disabled site tool launches like an enabled one. */
  lemma StatusIgnored(post: Option<PostRef>, getId: string, getTool: string, deeplink: bool, tool: Post,
      status: Status)
    ensures Planned(post, getId, getTool, deeplink, Some(tool)) ==
      Planned(post, getId, getTool, deeplink, Some(tool.(status := status)))
  {
  }
}
