/**
 * LTI_Platform_Tool::shortcode: the HTML that the plugin's shortcode
 * renders in a post. The attributes are checked in order (tool and id
 * present, tool known, tool enabled, target valid); the first failure is
 * rendered in bold, otherwise a link, a pop-up link, an embedding link or
 * an inline frame is rendered for the target.
 */
module Shortcode {
  import opened PhpText
  import opened LtiTool
  import opened ToolSettings
  import opened DataConnector
  import opened ToolRegistry

  /** The shortcode's attributes; shortcode_atts makes every unknown one read as ''. */
  type Atts = map<string, string>

  /** What the shortcode reads of a tool that fromCode found. */
  datatype ToolView = ToolView(enabled: bool, settings: Settings)

  /** The view of the tool loaded from a post. */
  function ViewOf(p: Post): ToolView {
    ToolView(EnabledIn(p.status), StripReserved(p.content))
  }

  /** The required attributes that are missing, tool before id. */
  function MissingAtts(atts: Atts): (r: seq<string>)
    ensures "tool" in r <==> Empty(Lookup(atts, "tool"))
    ensures "id" in r <==> Empty(Lookup(atts, "id"))
    ensures |r| == 2 ==> r == ["tool", "id"]
  {
    (if Empty(Lookup(atts, "tool")) then ["tool"] else []) + (if Empty(Lookup(atts, "id")) then ["id"] else [])
  }

  /** The four presentation targets a link may use. */
  predicate ValidTarget(t: string) {
    t == "window" || t == "popup" || t == "iframe" || t == "embed"
  }

  /** The shortcode's target: its own attribute, else the tool's setting, with no further default. */
  function ShortcodeTarget(atts: Atts, settings: Settings): string {
    if !Empty(Lookup(atts, "target")) then Lookup(atts, "target") else GetSetting(settings, "presentationTarget", "")
  }

  /**
   * The shortcode's error checks as written: each check runs only while no
   * error has been recorded. `tool` is fromCode's result, looked up only
   * when both attributes are present. The result is the target, or the error.
   */
  function Checked(atts: Atts, tool: Option<ToolView>): (r: Result<string>)
    ensures |MissingAtts(atts)| > 0 ==> r == Failure("Missing attribute(s): " + Join(MissingAtts(atts), ", "))
    ensures |MissingAtts(atts)| == 0 && tool.None? ==>
      r == Failure("Tool parameter not recognised: " + Lookup(atts, "tool"))
    ensures |MissingAtts(atts)| == 0 && tool.Some? && !tool.value.enabled ==> r == Failure("LTI Tool is not available")
    ensures |MissingAtts(atts)| == 0 && tool.Some? && tool.value.enabled ==>
      var target := ShortcodeTarget(atts, tool.value.settings);
      r == if ValidTarget(target) then Success(target) else Failure("Invalid presentation target: " + target)
  {
    var missing := MissingAtts(atts);
    var e1 := if |missing| > 0 then "Missing attribute(s): " + Join(missing, ", ") else "";
    var e2 := if Empty(e1) && tool.None? then "Tool parameter not recognised: " + Lookup(atts, "tool") else e1;
    var e3 := if Empty(e2) && !tool.value.enabled then "LTI Tool is not available" else e2;
    var target := if Empty(e3) then ShortcodeTarget(atts, tool.value.settings) else "";
    var e4 := if Empty(e3) && !ValidTarget(target) then "Invalid presentation target: " + target else e3;
    if Empty(e4) then Success(target) else Failure(e4)
  }

  /**
   * A width or height: the link's attribute read by intval when it is set,
   * else the tool's setting; an empty result (including intval's 0) takes
   * the default.
   */
  function Dimension(att: string, setting: string, default: string): (r: string)
    requires !Empty(default)
    ensures !Empty(r)
  {
    var v := if !Empty(att) then IntToString(IntVal(att)) else setting;
    if Empty(v) then default else v
  }

  /** The size text of a pop-up or embedded link. */
  function SizeText(target: string, atts: Atts, settings: Settings): string {
    var popup := target == "popup";
    var width := Dimension(Lookup(atts, "width"), GetSetting(settings, "presentationWidth", ""),
      if popup then "800" else "100%");
    var height := Dimension(Lookup(atts, "height"), GetSetting(settings, "presentationHeight", ""),
      if popup then "500" else "400px");
    Sizes(popup, width, height)
  }

  /** The size text from a width and a height: "width=W,height=H" for a pop-up, CSS declarations otherwise. */
  function Sizes(popup: bool, width: string, height: string): string {
    var sep := if popup then "," else ";";
    var sep2 := if popup then "=" else ": ";
    var size := if !Empty(width) then "width" + sep2 + width + sep else "";
    var size' := size + (if !Empty(height) then "height" + sep2 + height + sep else "");
    if !Empty(size') && popup then size'[..|size'| - 1] else size'
  }

  /** The pop-up form drops only the final separator. */
  lemma PopupSizes(w: string, h: string)
    requires !Empty(w) && !Empty(h)
    ensures Sizes(true, w, h) == "width=" + w + ",height=" + h
  {
    var text := "width=" + w + ",height=" + h;
    assert "width" + "=" == "width=" && "height" + "=" == "height=" && "," + "height=" == ",height=";
    var size := "width" + "=" + w + "," + ("height" + "=" + h + ",");
    assert size == text + ",";
    assert (text + ",")[..|text|] == text;
  }

  /** A pop-up's window features: both sizes, comma-separated, with no trailing comma. */
  lemma PopupSize(atts: Atts, settings: Settings)
    ensures SizeText("popup", atts, settings) ==
      "width=" + Dimension(Lookup(atts, "width"), GetSetting(settings, "presentationWidth", ""), "800") +
      ",height=" + Dimension(Lookup(atts, "height"), GetSetting(settings, "presentationHeight", ""), "500")
  {
    PopupSizes(Dimension(Lookup(atts, "width"), GetSetting(settings, "presentationWidth", ""), "800"),
      Dimension(Lookup(atts, "height"), GetSetting(settings, "presentationHeight", ""), "500"));
  }

  /** An embedded frame's style: both sizes as CSS declarations, each ending in ';'. */
  lemma EmbedSize(atts: Atts, settings: Settings)
    ensures SizeText("embed", atts, settings) ==
      "width: " + Dimension(Lookup(atts, "width"), GetSetting(settings, "presentationWidth", ""), "100%") +
      ";height: " + Dimension(Lookup(atts, "height"), GetSetting(settings, "presentationHeight", ""), "400px") + ";"
  {
    EmbedSizes(Dimension(Lookup(atts, "width"), GetSetting(settings, "presentationWidth", ""), "100%"),
      Dimension(Lookup(atts, "height"), GetSetting(settings, "presentationHeight", ""), "400px"));
  }

  /** The frame form keeps every separator. */
  lemma EmbedSizes(w: string, h: string)
    requires !Empty(w) && !Empty(h)
    ensures Sizes(false, w, h) == "width: " + w + ";height: " + h + ";"
  {
    assert "width" + ": " + w + ";" + ("height" + ": " + h + ";") == "width: " + w + ";height: " + h + ";";
  }

  /** With no sizes on the link or the tool, a pop-up is 800 by 500 and a frame 100% by 400px. */
  lemma DefaultSizes(atts: Atts, settings: Settings)
    requires "width" !in atts && "height" !in atts
    requires "presentationWidth" !in settings && "presentationHeight" !in settings
    ensures SizeText("popup", atts, settings) == "width=800,height=500"
    ensures SizeText("embed", atts, settings) == "width: 100%;height: 400px;"
  {
    PopupSize(atts, settings);
    EmbedSize(atts, settings);
  }

  /** A size on the link replaces the tool's setting with its integer value, unless that value is 0. */
  lemma LinkSizeOverrides(att: string, setting: string, default: string)
    requires !Empty(default) && !Empty(att) && IntVal(att) != 0
    ensures Dimension(att, setting, default) == IntToString(IntVal(att))
    ensures IntVal(Dimension(att, setting, default)) == IntVal(att)
  {
    IntValOfString(IntVal(att));
  }

  /** The markup for a valid target; `url` is the launch URL and `embedUrl` it with the embed flag added. */
  function Markup(target: string, code: string, linkText: string, content: string, url: string, embedUrl: string,
      size: string): string
  {
    if target == "window" then
      "<a href=\"" + url + "\" title=\"Launch " + code + " tool\" target=\"_blank\">" + linkText + "</a>"
    else if target == "popup" then
      "<a href=\"#\" title=\"Launch " + code + " tool\" onclick=\"window.open('" + url + "', '', '" + size +
      "'); return false;\">" + linkText + "</a>"
    else if target == "iframe" then
      "<a href=\"" + embedUrl + "\" title=\"Embed " + code + " tool\">" + linkText + "</a>"
    else
      content + "</p><div><iframe style=\"border: none;" + size + "\" class=\"\" src=\"" + url +
      "\" allowfullscreen></iframe></div><p>"
  }

  /** The error's text in bold. */
  function ErrorMarkup(error: string): string {
    "<strong>" + error + "</strong>"
  }

  /**
   * shortcode($atts, $content): the markup for the target, with the
   * enclosed content as link text (the tool code when there is none), or
   * the first error in bold.
   */
  function Render(atts: Atts, content: string, tool: Option<ToolView>, url: string, embedUrl: string): string {
    match Checked(atts, tool)
    case Failure(error) => ErrorMarkup(error)
    case Success(target) =>
      var linkText := if !Empty(content) then content else Lookup(atts, "tool");
      var size := if target == "popup" || target == "embed" then SizeText(target, atts, tool.value.settings) else "";
      Markup(target, Lookup(atts, "tool"), linkText, content, url, embedUrl, size)
  }

  /** A shortcode with neither attribute names both, in order. */
  lemma BothMissing(atts: Atts, content: string, tool: Option<ToolView>, url: string, embedUrl: string)
    requires Empty(Lookup(atts, "tool")) && Empty(Lookup(atts, "id"))
    ensures Render(atts, content, tool, url, embedUrl) == ErrorMarkup("Missing attribute(s): tool, id")
  {
    assert MissingAtts(atts) == ["tool", "id"];
    assert Join(["tool", "id"], ", ") == "tool" + ", " + Join(["id"], ", ");
  }

  /**
   * Unlike a launch, the shortcode has no 'window' default: with no target
   * on the link or the tool, an enabled tool renders an error.
   */
  lemma NoWindowDefault(atts: Atts, content: string, v: ToolView, url: string, embedUrl: string)
    requires |MissingAtts(atts)| == 0 && v.enabled
    requires Empty(Lookup(atts, "target")) && "presentationTarget" !in v.settings
    ensures Render(atts, content, Some(v), url, embedUrl) == ErrorMarkup("Invalid presentation target: ")
  {
  }

  /** A disabled tool is never linked, whatever its target. */
  lemma DisabledNotLinked(atts: Atts, content: string, v: ToolView, url: string, embedUrl: string)
    requires |MissingAtts(atts)| == 0 && !v.enabled
    ensures Render(atts, content, Some(v), url, embedUrl) == ErrorMarkup("LTI Tool is not available")
  {
  }

  /** A pop-up link opens the launch URL in a new window with the pop-up's size. */
  lemma PopupMarkup(atts: Atts, content: string, v: ToolView, url: string, embedUrl: string)
    requires Checked(atts, Some(v)) == Success("popup")
    ensures Render(atts, content, Some(v), url, embedUrl) ==
      Markup("popup", Lookup(atts, "tool"), if !Empty(content) then content else Lookup(atts, "tool"), content,
        url, embedUrl, "width=" + Dimension(Lookup(atts, "width"), GetSetting(v.settings, "presentationWidth", ""), "800") +
        ",height=" + Dimension(Lookup(atts, "height"), GetSetting(v.settings, "presentationHeight", ""), "500"))
  {
    PopupSize(atts, v.settings);
  }

  /**
   * shortcode(): fromCode is consulted only once both attributes are
   * present; the rest is Render. `url` and `embedUrl` are what
   * add_query_arg builds from the site URL, the post and the link id.
   */
  method RenderShortcode(atts: Atts, content: string, multisite: bool, network: PostStore, site: PostStore,
      currentBlog: int, options: Options, url: string, embedUrl: string) returns (html: string)
    ensures html == Render(atts, content,
      if |MissingAtts(atts)| > 0 then None
      else match Posted(multisite, network, site, Lookup(atts, "tool"))
        case Some(p) => Some(ViewOf(p))
        case None => None,
      url, embedUrl)
  {
    var view: Option<ToolView> := None;
    if |MissingAtts(atts)| == 0 {
      var tool := FromCode(Lookup(atts, "tool"), multisite, network, site, currentBlog, options);
      if tool != null {
        view := Some(ToolView(tool.enabled, tool.settings));
      }
    }
    html := Render(atts, content, view, url, embedUrl);
  }
}
