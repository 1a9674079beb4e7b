# LTI Platform for WordPress: a verified model of its core

The plugin turns a WordPress site into an LTI platform. An administrator
registers external learning tools. Authors place `[lti-platform tool=… id=…]`
shortcodes in posts, and readers launch the tools from those links. This
project models the decision logic the plugin itself implements:

- **Tool eligibility.** A tool may use LTI 1.3 only when it has a login URL,
  redirection URIs and the platform has a key id and private key. A tool may be
  enabled only with a message URL and either LTI 1.0 credentials or LTI 1.3.
- **Saving and finding tools.** `save` lowercases the code, refuses a code
  another record uses, and saves a tool that cannot be enabled as disabled.
  `fromCode` prefers an enabled network tool to a site tool.
- **Persistence codec.** The data connector stores each tool as a post. The
  tool's structured properties go into the settings bag under reserved `__…`
  names. The RSA key's CR LF becomes `&#13;&#10;` and the quotes of the
  JSON-encoded redirection URIs become `&quot;`. The post status carries the
  `deleted`/`enabled` flags. Record id, creation and update times are kept.
- **Shortcode rendering.** The first failing check gives the error. Pop-up
  and embedded links get a size string.
- **Launch messages.** `message()` is a chain of checks in which the first
  failure gives the reason. It then builds the parameters: base, message type,
  sizes, privacy-gated user details, and normalised custom parameters. After
  a launch it records at most one access per day. `get_link_atts`,
  `get_platform` and `handleRequest` are modelled too.
- **Returned content.** `content()` and `setAttribute` turn a returned content
  item into shortcode attributes.
- **Login state.** `onInitiateLogin` stores the user's login state.
  `onAuthenticate` consumes it and accepts or refuses. `onContentItem` accepts
  exactly one LTI link.
- **Tool editor.** `update_tool` copies the form onto the tool and picks the
  LTI version. `edit_page_html` gates it on the capability and the nonce.

Modules (one per file):

| module | file |
|---|---|
| `PhpText` | `php_text.dfy` |
| `JsonList` | `json_list.dfy` |
| `LtiTool` | `lti_tool.dfy` |
| `ToolSettings` | `tool_settings.dfy` |
| `DataConnector` | `data_connector.dfy` |
| `ToolRegistry` | `tool_registry.dfy` |
| `Shortcode` | `shortcode.dfy` |
| `CustomParams` | `custom_params.dfy` |
| `Launch` | `launch.dfy` |
| `PlatformV5` | `platform_v5.dfy` |
| `ContentItems` | `content_items.dfy` |
| `Admin` | `admin.dfy` |

Mutable objects are classes whose methods change only the fields they name:

- the tool (`LtiTool.Tool`);
- a blog's post store (`DataConnector.PostStore`);
- the per-user login option store (`PlatformV5.UserLogins`);
- the platform's result fields (`PlatformV5.Platform`).

The pure rules are functions. Each method is proved against a function or
against the new state it promises.

Where the plugin calls the ceLTIc library, the model follows what the
plugin's own code relies on:

- `setSetting` with an empty value (`null`, `''` or `'0'`) removes the
  setting;
- `getSetting` of a missing name gives the default;
- dates are kept at the granularity of a day.

Modelling decisions:

- PHP `empty()` on a string is modelled exactly: both `''` and `'0'` are
  empty.
- The clock, database success and random ids are parameters (`now`, `accept`,
  `rid`).
- `save` lowercases the tool's code before the duplicate scan
  (includes/class-lti-platform-tool.php:124), so a save refused as a
  duplicate still leaves the code lowercased.

## Model

| member | source | states |
|---|---|---|
| LtiTool.SetSetting | includes/class-lti-platform-dataconnector.php:241-242 | the set name reads back as the value, or as '' when the value is empty (removed); every other name reads as before and the rest of the bag is unchanged |
| LtiTool.GetOptionAgainstOptionSet | includes/class-lti-platform-tool.php:92-99 | getOption agrees with the `!empty` test the constructor uses on a set option; an option present with an empty value is returned as it is (not the default) although `!empty` counts it as unset; a missing option gives the default |
| LtiTool.SetEachOutside | includes/class-lti-platform-tool.php:105-116 | a run of setSetting calls changes nothing outside the names it sets |
| LtiTool.SetEachUntouched | includes/class-lti-platform-tool.php:105-116 | a name no call sets reads the same afterwards |
| LtiTool.SetEachReads | includes/class-lti-platform-tool.php:105-116 | a name whose last setting is call i reads back as that call's value (blank when empty) |
| LtiTool.SettingNamesDistinct | includes/class-lti-platform-tool.php:105-116 | the constructor's setting names of equal length are different names |
| LtiTool.DefaultRead | includes/class-lti-platform-tool.php:105-116 | each of the constructor's eight settings reads back as the value it sets |
| LtiTool.DefaultSettingsRead | includes/class-lti-platform-tool.php:101-117 | a new tool's five privacy flags are 'true' exactly when the matching option is 'true', else 'false'; target, width and height are the option when it is set, else nothing |
| LtiTool.Tool.constructor | includes/class-lti-platform-tool.php:101-117 | a new tool is unsaved (record id 0), disabled, not deleted, with empty properties, no access, and the option-derived settings bag |
| LtiTool.NoMessageUrlNoEnable | includes/class-lti-platform-tool.php:342-346 | without a message URL canBeEnabled is false whatever else the tool has |
| LtiTool.Lti13EnablesWithoutSecret | includes/class-lti-platform-tool.php:342-346 | a tool with a message URL that canUseLTI13 allows can be enabled with no key or secret |
| LtiTool.WithoutPlatformKeyNeedsSecret | includes/class-lti-platform-tool.php:194-199 | without both kid and privatekey options, canUseLTI13 fails, so canBeEnabled holds iff message URL, key and secret are all non-empty |
| ToolSettings.ReservedNamesDistinct | includes/class-lti-platform-dataconnector.php:268-281 | the reserved names of equal length differ |
| ToolSettings.DateText | includes/class-lti-platform-dataconnector.php:277-280 | a stored last-access date is text starting with '@', so it is never empty and setSetting keeps it |
| ToolSettings.DecodeUris | includes/class-lti-platform-dataconnector.php:253-256 | a stored value that does not decode to a list of strings gives [] |
| ToolSettings.EntryNames | includes/class-lti-platform-dataconnector.php:268-281 | each of the ten save-side setSetting calls writes a reserved name, and no two write the same one |
| ToolSettings.EncodedRead | includes/class-lti-platform-dataconnector.php:268-281 | each reserved name reads back as its property's stored text |
| ToolSettings.EncodedBag | includes/class-lti-platform-dataconnector.php:267-282 | saving leaves every non-reserved setting unchanged and gives each reserved name its stored text: the texts blank-normalised, useContentItem 'true' or nothing, URIs JSON with `&quot;`, RSA key with `&#13;&#10;`, last access as a day or nothing |
| ToolSettings.StripEncode | includes/class-lti-platform-dataconnector.php:240-282 | save then load leaves the non-reserved settings exactly as they were, and no reserved name remains |
| ToolSettings.QuoteEntityStart | includes/class-lti-platform-dataconnector.php:253-274 | an `&quot;` in the stored text starting after the first character comes from one in the original text |
| ToolSettings.QuoteRoundTrip | includes/class-lti-platform-dataconnector.php:253-274 | turning `"` into `&quot;` and back is the identity on text without a literal `&quot;` |
| ToolSettings.UrisRoundTrip | includes/class-lti-platform-dataconnector.php:253-274 | redirection URIs without a literal `&quot;` are decoded back exactly as they were encoded |
| ToolSettings.RsaEntityTail | includes/class-lti-platform-dataconnector.php:260-276 | stored RSA-key text starting with `&#10;` comes from a key starting with it |
| ToolSettings.RsaEntityRest | includes/class-lti-platform-dataconnector.php:260-276 | stored RSA-key text starting with `#13;&#10;` comes from a key starting with it |
| ToolSettings.RsaEntityStart | includes/class-lti-platform-dataconnector.php:260-276 | an `&#13;&#10;` in the stored key after its first character comes from one in the original key |
| ToolSettings.CrLfEntityRoundTrip | includes/class-lti-platform-dataconnector.php:260-276 | for a key without a literal `&#13;&#10;`, replacing the stored entity by any text equals replacing the original CR LF by it |
| ToolSettings.RsaKeyRoundTrip | includes/class-lti-platform-dataconnector.php:260-276 | an RSA key without a literal `&#13;&#10;` is loaded back exactly as saved |
| ToolSettings.LastAccessRoundTrip | includes/class-lti-platform-dataconnector.php:262-281 | a last access is loaded back as the start of its day; no access (null) stays no access |
| ToolSettings.DayStartIdempotent | public/class-lti-platform-public.php:350-352 | the start of the day of a day start is itself |
| ToolSettings.StoredThenLoaded | includes/class-lti-platform-dataconnector.php:88-90 | saving the properties into any bag and loading them back gives Reloaded: blank-normalised texts, decoded URIs and key, day-aligned access, whatever else the bag held |
| ToolSettings.FieldsRoundTrip | includes/class-lti-platform-dataconnector.php:240-282 | properties with no '0' texts, no literal entities and a day-aligned access survive save then load unchanged |
| ToolSettings.UseContentItemRoundTrip | includes/class-lti-platform-dataconnector.php:247-271 | useContentItem always survives save then load |
| JsonList.EscapeText | includes/class-lti-platform-dataconnector.php:274 | escaping never shortens a string |
| JsonList.EncodeList | includes/class-lti-platform-dataconnector.php:274 | json_encode of a list is bracketed text |
| JsonList.ParseString | includes/class-lti-platform-dataconnector.php:253 | a parsed JSON string leaves a strictly shorter rest |
| JsonList.ParseItems | includes/class-lti-platform-dataconnector.php:253 | a parsed non-empty item list has at least one element |
| JsonList.DecodeList | includes/class-lti-platform-dataconnector.php:253 | only bracketed text decodes to a list |
| JsonList.ParseItemsClosed | includes/class-lti-platform-dataconnector.php:253 | an item list that parses ends with `]` |
| JsonList.ParseStringSuffix | includes/class-lti-platform-dataconnector.php:253 | what follows a parsed string is a suffix of the input |
| JsonList.ParseEscaped | includes/class-lti-platform-dataconnector.php:253-274 | the string parser reads back exactly what the escaper wrote, followed by anything |
| JsonList.ParseItemsOfItems | includes/class-lti-platform-dataconnector.php:253-274 | a written non-empty item list parses back to the same strings |
| JsonList.DecodeEncode | includes/class-lti-platform-dataconnector.php:253-274 | json_decode(json_encode(uris)) gives the same list |
| JsonList.EscapeKeepsAbsent | includes/class-lti-platform-dataconnector.php:274 | escaping creates no occurrence of a needle without a backslash |
| JsonList.ItemsKeepAbsent | includes/class-lti-platform-dataconnector.php:274 | a needle free of list syntax absent from every URI is absent from the written items |
| JsonList.AbsentFromEmpty | includes/class-lti-platform-dataconnector.php:274 | a non-empty needle does not occur in '' |
| JsonList.ListKeepsAbsent | includes/class-lti-platform-dataconnector.php:274 | `&quot;` absent from every URI is absent from their JSON, so the quote escaping is reversible |
| DataConnector.StatusRoundTrip | includes/class-lti-platform-dataconnector.php:91-97 | the status written keeps `deleted`, and keeps `enabled` unless the tool is deleted (trash wins) |
| DataConnector.RestoreGivesDraft | includes/class-lti-platform-dataconnector.php:153-159 | a trashed tool reloads disabled, so restoring it saves a draft |
| DataConnector.PostStore.constructor | includes/class-lti-platform-dataconnector.php:114 | an empty, valid post store |
| DataConnector.PostStore.Insert | includes/class-lti-platform-dataconnector.php:112-114 | an accepted insert stores the post under a fresh id and returns it; a refused one returns 0 and changes nothing |
| DataConnector.PostStore.Update | includes/class-lti-platform-dataconnector.php:109-114 | an update succeeds iff accepted and the id exists, and then replaces exactly that post |
| DataConnector.FindBySlug | includes/class-lti-platform-tool.php:55-66 | the lowest id with the slug, or none when no post has it |
| DataConnector.FixToolSettings | includes/class-lti-platform-dataconnector.php:237-283 | on save the bag becomes the encoded bag and the properties stay; on load the properties become the decoded ones and the reserved names are removed |
| DataConnector.StoreFields | includes/class-lti-platform-dataconnector.php:267-282 | the bag becomes the old bag with the old properties encoded into it |
| DataConnector.LoadFields | includes/class-lti-platform-dataconnector.php:240-266 | the properties become those decoded from the old bag, and the bag loses exactly the reserved names |
| DataConnector.FromPost | includes/class-lti-platform-dataconnector.php:213-229 | the tool is LoadedFrom the post: id, blog, title, slug, deleted iff trash, enabled iff publish, dates, decoded properties, stripped bag; debug mode, version and signature method untouched |
| DataConnector.LoadRecord | includes/class-lti-platform-dataconnector.php:215-227 | record id, blog, name, code, flags, dates and raw bag are copied from the post |
| DataConnector.SaveTool | includes/class-lti-platform-dataconnector.php:85-129 | success iff the write is accepted and the record is new or exists; the post gets the encoded bag and the status of the flags; a new record learns a fresh id, the current blog and created = now; every success sets updated = now; failure changes no id, blog or time and writes nothing; the properties survive as Reloaded |
| DataConnector.EncodeAndReload | includes/class-lti-platform-dataconnector.php:88-90 | the content is the encoded bag; afterwards the tool holds exactly the properties decoded from that content and the stripped bag, with name, code, flags, id and dates untouched |
| DataConnector.WritePost | includes/class-lti-platform-dataconnector.php:91-126 | the record bookkeeping of SaveTool: insert for a new record (id, blog, created = now), update for an existing one (created kept), updated = now on success, nothing changed on failure |
| DataConnector.TrashTool | includes/class-lti-platform-dataconnector.php:138-144 | the tool is deleted with `enabled`, name and code kept; its properties are reloaded and its settings stripped as by saveTool; on success the store maps its record id to a post in the trash holding the stored properties, dated now; on failure the store and record bookkeeping are unchanged |
| DataConnector.RestoreTool | includes/class-lti-platform-dataconnector.php:153-159 | the tool is not deleted, with `enabled`, name and code kept; its properties are reloaded as by saveTool; on success the store maps its record id to a post published or draft according to `enabled`, holding the stored properties, dated now; on failure nothing is written |
| DataConnector.Latest | includes/class-lti-platform-dataconnector.php:204-208 | the entry kept for a code names a post with that code |
| DataConnector.LatestIsLast | includes/class-lti-platform-dataconnector.php:204-208 | a code has an entry iff some listed post has it, and the entry is the last such post |
| DataConnector.LatestStep | includes/class-lti-platform-dataconnector.php:204-208 | one more post either becomes its code's entry or leaves that code's entry alone |
| DataConnector.ToolFromPost | includes/class-lti-platform-dataconnector.php:205-206 | a fresh tool loaded from the post, with debug mode off |
| DataConnector.GetToolsWithArgs | includes/class-lti-platform-dataconnector.php:193-211 | the map has a code iff some listed post has it, and holds a fresh tool loaded from the last post with that code |
| ToolRegistry.FindDuplicate | includes/class-lti-platform-tool.php:125-135 | the scan finds a duplicate iff some other record id has the code |
| ToolRegistry.Save | includes/class-lti-platform-tool.php:119-154 | the code is lowered first; a duplicate code returns false and writes nothing; otherwise enabled is kept only if the tool can be enabled, the result is saveTool's and the post holds the encoded bag |
| ToolRegistry.Resolve | includes/class-lti-platform-tool.php:49-74 | a network result is a published network post with the code (multisite only); a site result is a site post with the code, enabled or not; none means no site post has the code |
| ToolRegistry.Posted | includes/class-lti-platform-tool.php:49-74 | the post found exists iff Resolve finds one, and has the requested slug |
| ToolRegistry.NetworkShadowsSite | includes/class-lti-platform-tool.php:53-63 | an enabled network tool that get_page_by_path finds (the lowest id with the code) is chosen whatever the site holds |
| ToolRegistry.DisabledNetworkFallsBack | includes/class-lti-platform-tool.php:57-71 | a disabled network tool is skipped: the lookup is the site-only lookup |
| ToolRegistry.FromCode | includes/class-lti-platform-tool.php:49-74 | null iff Resolve finds nothing; otherwise a fresh tool loaded from the post Resolve names (blog 0 for the network) |
| Shortcode.MissingAtts | includes/class-lti-platform-tool.php:248-254 | 'tool' is listed iff the tool attribute is empty, 'id' iff the id attribute is; tool comes before id |
| Shortcode.Checked | includes/class-lti-platform-tool.php:247-272 | errors in order: missing attributes, unrecognised tool, tool not available, invalid target; otherwise the target |
| Shortcode.Dimension | includes/class-lti-platform-tool.php:280-305 | a size is never empty: link value by intval, else the tool's, else the default |
| Shortcode.PopupSizes | includes/class-lti-platform-tool.php:307-316 | a pop-up's size text is `width=W,height=H` with no trailing comma |
| Shortcode.PopupSize | includes/class-lti-platform-tool.php:279-316 | a pop-up's size text from the link, tool and defaults 800/500 |
| Shortcode.EmbedSize | includes/class-lti-platform-tool.php:279-316 | an embed's size text `width: W;height: H;` from the link, tool and defaults 100%/400px |
| Shortcode.EmbedSizes | includes/class-lti-platform-tool.php:307-316 | the embed form keeps the trailing ';' |
| Shortcode.DefaultSizes | includes/class-lti-platform-tool.php:288-306 | with no sizes anywhere: `width=800,height=500` and `width: 100%;height: 400px;` |
| Shortcode.LinkSizeOverrides | includes/class-lti-platform-tool.php:281-287 | a link size with a non-zero integer value replaces the tool's, as its intval |
| Shortcode.BothMissing | includes/class-lti-platform-tool.php:247-257 | a shortcode with neither attribute renders `<strong>Missing attribute(s): tool, id</strong>` |
| Shortcode.NoWindowDefault | includes/class-lti-platform-tool.php:267-271 | with no target on the link or tool, an enabled tool renders the invalid-target error (no 'window' default) |
| Shortcode.DisabledNotLinked | includes/class-lti-platform-tool.php:264-266 | a disabled tool renders 'LTI Tool is not available' whatever its target |
| Shortcode.PopupMarkup | includes/class-lti-platform-tool.php:324-326 | a pop-up link opens the launch URL with the pop-up size text |
| Shortcode.RenderShortcode | includes/class-lti-platform-tool.php:233-340 | fromCode is consulted only when both attributes are present; the markup is Render of the outcome |
| CustomParams.Keys | public/class-lti-platform-public.php:330-331 | the keys of the parsed array, in order |
| CustomParams.Put | public/class-lti-platform-public.php:330 | a repeated key keeps its place; a new key goes last |
| CustomParams.DropLeadingSpaces | public/class-lti-platform-public.php:330 | a suffix of the name that does not start with a space |
| CustomParams.VarName | public/class-lti-platform-public.php:330 | a registered name has no space or dot |
| CustomParams.PlainVarName | public/class-lti-platform-public.php:330 | a name without space or dot is registered as it is |
| CustomParams.SplitPair | public/class-lti-platform-public.php:330 | the name of a query piece, as registered, holds no space or dot |
| CustomParams.PutNames | public/class-lti-platform-public.php:330-331 | assigning into the parsed array keeps its names distinct and adds no name but the assigned one |
| CustomParams.ParsePiecesNames | public/class-lti-platform-public.php:330 | reading further pieces keeps the names non-empty, free of spaces and dots, and distinct |
| CustomParams.ParseStrNames | public/class-lti-platform-public.php:330 | the array parse_str returns has distinct, non-empty names with no space or dot |
| CustomParams.NameChar | public/class-lti-platform-public.php:332 | every character becomes at least one character |
| CustomParams.Underscored | public/class-lti-platform-public.php:332 | the result has only a-z, 0-9 and '_' |
| CustomParams.CustomName | public/class-lti-platform-public.php:332 | a normalised name has only a-z, 0-9 and '_' |
| CustomParams.Named | public/class-lti-platform-public.php:331-332 | each pair keeps its value and gets its normalised name |
| CustomParams.AddCustomParams | public/class-lti-platform-public.php:331-336 | the loop adds `custom_<name>` for each pair with a non-empty normalised name, in order (AddCustom) |
| CustomParams.OtherParamsKept | public/class-lti-platform-public.php:331-345 | a parameter not named custom_… is neither added nor changed |
| CustomParams.PrefixedDiffer | public/class-lti-platform-public.php:334-343 | different names give different parameter names |
| CustomParams.LastPairWins | public/class-lti-platform-public.php:331-336 | the last pair with a normalised name decides that parameter |
| CustomParams.ToolWinsOverLink | public/class-lti-platform-public.php:328-346 | a tool pair not repeated later in the tool's list wins over the link's pair of that name |
| CustomParams.CustomOnlyAddsCustom | public/class-lti-platform-public.php:328-346 | custom pairs only add or change custom_… parameters |
| Launch.FirstMatch | public/class-lti-platform-public.php:376-381 | the first shortcode from a position whose non-empty id equals the requested one |
| Launch.GetLinkAtts | public/class-lti-platform-public.php:370-394 | the loops give LinkAttsOf: the first match's attributes, without id if a second match exists, with `&amp;` unescaped |
| Launch.DuplicateIdDropped | public/class-lti-platform-public.php:378-385 | two matching shortcodes leave no id |
| Launch.SingleMatchKept | public/class-lti-platform-public.php:378-381 | a single match gives its attributes, id included |
| Launch.LinkVerdict | public/class-lti-platform-public.php:194-217 | no post gives its reason first; success has a non-empty tool; a launch needs an id and uses the linked attributes; a deep link uses the `tool` request parameter |
| Launch.ResolveUrl | public/class-lti-platform-public.php:239-250 | a URL always starts with the message URL; failure ('Invalid url attribute') iff the attribute is absolute and does not start with it |
| Launch.ToolVerdict | public/class-lti-platform-public.php:225-250 | a launch without an id fails as duplicate; success has a valid target equal to the link's, else the tool's, else 'window', and a URL under the message URL |
| Launch.DuplicateLinkRefused | public/class-lti-platform-public.php:225-230 | a link id shared by two shortcodes is refused with 'Duplicate id attribute in link' |
| Launch.WindowByDefault | public/class-lti-platform-public.php:233 | with no target on the link or tool a launch uses 'window' |
| Launch.Planned | public/class-lti-platform-public.php:194-250 | a planned launch passed the link checks and found its tool |
| Launch.NotCustom | public/class-lti-platform-public.php:334-343 | a name differing from "custom_" early is not a custom parameter |
| Launch.GuidKeeps | public/class-lti-platform-public.php:271-273 | the guid stage changes only the guid parameter |
| Launch.TypeKeeps | public/class-lti-platform-public.php:274-284 | the message-type stage changes only its own parameters |
| Launch.SizeKeeps | public/class-lti-platform-public.php:285-300 | the size stage changes only the two size parameters |
| Launch.LaunchSize | public/class-lti-platform-public.php:286-297 | a size from the link reads back, by intval, as the link attribute's intval; with no link size the tool's setting is used as it is |
| Launch.SizeWidth | public/class-lti-platform-public.php:285-292 | the width is added iff the target is popup, iframe or embed and the width is not empty |
| Launch.TypeLacks | public/class-lti-platform-public.php:259-284 | no earlier stage writes a width, and a launch writes no return URL |
| Launch.UserKeeps | public/class-lti-platform-public.php:301-327 | the user stage changes only user-detail parameters |
| Launch.PriorKeeps | public/class-lti-platform-public.php:259-300 | a base parameter that no later stage names keeps its base value |
| Launch.CustomStageKeeps | public/class-lti-platform-public.php:328-346 | custom pairs never add or change a non-custom parameter |
| Launch.BaseSent | public/class-lti-platform-public.php:259-270 | a base parameter no later stage names is sent with its base value |
| Launch.PriorSent | public/class-lti-platform-public.php:259-346 | a guid, type or size parameter is sent as those stages left it |
| Launch.TypeSent | public/class-lti-platform-public.php:274-284 | a message-type parameter is sent as that stage left it |
| Launch.ReturnUrlEncoded | public/class-lti-platform-public.php:283 | the encoded tool code holds no '&' or '=' |
| Launch.UserSent | public/class-lti-platform-public.php:301-327 | a user detail is sent exactly as the user stage writes it |
| Launch.UserIdDetail | public/class-lti-platform-public.php:301-303 | user_id is written iff sendUserId is 'true', as the user id |
| Launch.EmailDetail | public/class-lti-platform-public.php:315-317 | the email is written iff sendUserEmail is 'true' |
| Launch.RoleDetail | public/class-lti-platform-public.php:318-324 | roles is written iff sendUserRole is 'true' |
| Launch.UsernameDetail | public/class-lti-platform-public.php:325-327 | ext_username is written iff sendUserUsername is 'true' |
| Launch.FullNameDetail | public/class-lti-platform-public.php:304-307 | the full name is written iff sendUserName is 'true' and it is not empty |
| Launch.GivenNameDetail | public/class-lti-platform-public.php:304-310 | the given name is written iff sendUserName is 'true' and it is not empty |
| Launch.FamilyNameDetail | public/class-lti-platform-public.php:304-313 | the family name is written iff sendUserName is 'true' and it is not empty |
| Launch.UserIdGated | public/class-lti-platform-public.php:301-303 | user_id is sent iff the sendUserId setting is exactly 'true' |
| Launch.EmailGated | public/class-lti-platform-public.php:315-317 | the email is sent iff sendUserEmail is exactly 'true' |
| Launch.RoleGated | public/class-lti-platform-public.php:318-324 | roles is sent iff sendUserRole is 'true': Instructor iff the user can manage options, else Learner |
| Launch.UsernameGated | public/class-lti-platform-public.php:325-327 | ext_username is sent iff sendUserUsername is 'true' |
| Launch.GivenNameGated | public/class-lti-platform-public.php:304-310 | the given name is sent iff sendUserName is 'true' and the name is not empty |
| Launch.FullNameGated | public/class-lti-platform-public.php:304-307 | the full name is sent iff sendUserName is 'true' and the display name is not empty |
| Launch.FamilyNameGated | public/class-lti-platform-public.php:304-313 | the family name is sent iff sendUserName is 'true' and the name is not empty |
| Launch.WidthSent | public/class-lti-platform-public.php:285-292 | the width is sent iff the target is popup, iframe or embed and the link's intval width or the tool's width is not empty |
| Launch.ContextSent | public/class-lti-platform-public.php:260 | every message names the post id as its context |
| Launch.PopupSentAsWindow | public/class-lti-platform-public.php:263 | popup is sent as 'window'; other targets as themselves |
| Launch.GuidSentIffSet | public/class-lti-platform-public.php:271-273 | the instance guid is sent iff the platformguid option is set |
| Launch.LinkIdSent | public/class-lti-platform-public.php:276 | a launch's resource_link_id is `{postId}-{linkId}` |
| Launch.LinkTitleSent | public/class-lti-platform-public.php:254-258 | a launch's title is the title attribute, else the tool code (never the link text) |
| Launch.LaunchHasNoReturnUrl | public/class-lti-platform-public.php:274-277 | a launch carries no content_item_return_url |
| Launch.DeepLinkSingleItem | public/class-lti-platform-public.php:281 | a content-item request sends accept_multiple = 'false' |
| Launch.DeepLinkReturnUrl | public/class-lti-platform-public.php:283 | the return URL is the site URL + `/?lti-platform&content&tool=` + the URL-encoded code |
| Launch.DeepLinkHasNoResourceLink | public/class-lti-platform-public.php:278-284 | a content-item request carries no resource_link_id |
| Launch.ToolCustomWins | public/class-lti-platform-public.php:328-346 | a tool custom pair not repeated later is sent with its value, whatever the link or other stages wrote |
| Launch.PlatformFor | public/class-lti-platform-public.php:396-418 | LTI 1.3 with RS256 iff canUseLTI13, else LTI 1.0 with HMAC-SHA1; key, secret, code, site URL, blog id and platform key copied |
| Launch.NoPlatformKeyMeansLti10 | public/class-lti-platform-public.php:409-411 | without kid or private key every tool is signed with HMAC-SHA1 |
| Launch.HandleRequest | public/class-lti-platform-public.php:100-114 | success iff client_id is non-empty and names a saved tool, with that tool's platform; otherwise 'Tool not found.' |
| Launch.RecordAccess | public/class-lti-platform-public.php:350-354 | the daily check as intended: the tool is saved exactly when the stored day differs from today (a tool never launched included) and save() accepts it, with the post written as save() writes it; afterwards the last access lies in today, so a second launch the same day saves nothing |
| Launch.AccessCheckAsWritten | public/class-lti-platform-public.php:350-351 | the check as written under PHP 8 is the day test for a tool with a last access, and never fires for a tool without one |
| Launch.FirstAccessNeverRecorded | public/class-lti-platform-public.php:350-354 | for a tool never launched the check as written fails on every day, where the day test fires on every day after 1 January 1970 |
| Launch.FirstAccessRecorded | public/class-lti-platform-public.php:350-354 | under the intended day test, a tool never launched is persisted on its first launch after 1 January 1970 exactly when save() accepts it |
| Launch.BuildParams | public/class-lti-platform-public.php:259-346 | the parameters are LaunchParams: base, guid, type, sizes, user details, then link and tool custom pairs |
| Launch.LinkedTool | public/class-lti-platform-public.php:218-224 | the tool post is looked up by the checked link's tool code |
| Launch.LinkedId | public/class-lti-platform-public.php:218-224 | the record id fromCode loads, present exactly when the linked post is |
| Launch.CheckLaunch | public/class-lti-platform-public.php:192-250 | the checks run in order and the first failure's reason is the result; a tool is loaded exactly when the link passes and its code names a post, and it is that post's tool, debug mode off; debug is the tool's flag, launches only |
| Launch.Message | public/class-lti-platform-public.php:190-358 | a failed check gives the error page with its reason and the loaded tool's debug flag (a tool exactly when the linked post exists) and writes nothing; success sends the expected message to the checked URL, leaves the last access in today, and writes the tool's post (its stored properties with today as last access) exactly when the stored day was not today and save() accepts the loaded tool |
| Launch.SendAndRecord | public/class-lti-platform-public.php:259-354 | the message sent is the expected one for the loaded post, and the access is recorded exactly when the stored day differs from today and save() accepts it |
| Launch.StatusIgnored | public/class-lti-platform-public.php:218-250 | the checks do not look at the tool's status: a disabled tool launches like an enabled one |
| PlatformV5.UserLogins.constructor | includes/class-lti-platform-platform_v5.php:71 | no user has a stored login |
| PlatformV5.UserLogins.Stored | includes/class-lti-platform-platform_v5.php:80 | the stored login exists iff the user has one, and is that login |
| PlatformV5.Platform.constructor | includes/class-lti-platform-platform_v5.php:77-110 | a platform starts ok, with no reason, parameters or content item |
| PlatformV5.OnInitiateLogin | includes/class-lti-platform-platform_v5.php:62-72 | the outgoing message hint is null; the user's entry becomes {url, login hint, params} with no message hint; other users unchanged |
| PlatformV5.OnAuthenticate | includes/class-lti-platform-platform_v5.php:77-91 | the user's state is cleared in every case; a mismatch gives ok = false and error 'access_denied' with the URL not restored; a match restores URL and parameters from the state |
| PlatformV5.OwnStateNeedsLoginHintOnly | includes/class-lti-platform-platform_v5.php:64-84 | with the plugin's own state, acceptance depends on the login hint alone |
| PlatformV5.ReplayRejected | includes/class-lti-platform-platform_v5.php:81-86 | after the state is cleared, a request with a login hint is refused |
| PlatformV5.MessageHintRequired | includes/class-lti-platform-platform_v5.php:84 | a stored message hint must be repeated exactly |
| PlatformV5.ItemsVerdict | includes/class-lti-platform-platform_v5.php:98-109 | success iff exactly one LTI-link item, which is the result; 'No items returned', 'More than one item has been returned' and 'Item must be an LTI link or assignment' otherwise |
| PlatformV5.OnContentItem | includes/class-lti-platform-platform_v5.php:96-110 | ok iff ItemsVerdict succeeds; then the content item is set, else the reason is |
| ContentItems.KeyValues | public/class-lti-platform-public.php:566-568 | each pair written as `k=v` |
| ContentItems.Attribute | public/class-lti-platform-public.php:559-578 | '' iff the value is empty; otherwise ` name=` followed by the flattened value, in double quotes iff it contains a space |
| ContentItems.JoinSnoc | public/class-lti-platform-public.php:566-569 | joining one more piece appends the separator and the piece |
| ContentItems.TerminatedIsJoin | public/class-lti-platform-public.php:566-569 | the loop's text is the `;`-joined pairs plus one `;`, which substr removes |
| ContentItems.SetAttribute | public/class-lti-platform-public.php:559-578 | the loop and substr give Attribute: pairs joined by ';' with no trailing ';' |
| ContentItems.PlacementAttribute | public/class-lti-platform-public.php:514-525 | no placement attribute without a placement target |
| ContentItems.ContentAttributes | public/class-lti-platform-public.php:505-506 | the attributes start with `tool=<code> id=<lowercased random id>` |
| ContentItems.AppendAttribute | public/class-lti-platform-public.php:507-528 | appends exactly setAttribute's text |
| ContentItems.Content | public/class-lti-platform-public.php:487-557 | nothing is inserted unless the platform accepted the item; then ContentAttributes and the item title, else the tool name, as link text |
| ContentItems.TargetIsFirstListed | public/class-lti-platform-public.php:516-517 | the target is a comma-free prefix of the target list |
| ContentItems.ExplodeAtSeparator | public/class-lti-platform-public.php:330 | a separator ends a piece |
| ContentItems.SplitNamed | public/class-lti-platform-public.php:330 | `k=v` with no '=' in k splits into the name parse_str registers for k, and v |
| ContentItems.SpaceBeforeEquals | public/class-lti-platform-public.php:330 | a non-empty plain name followed by a space before '=' is registered with a trailing '_': `foo =bar` names foo_, sent as custom_foo_, not custom_foo |
| ContentItems.ExplodeJoin | public/class-lti-platform-public.php:330 | exploding pieces joined by a separator that none holds gives them back |
| ContentItems.ReplaceSeparator | public/class-lti-platform-public.php:330 | replacing ';' in a join by '&' is joining with '&' |
| ContentItems.SplitKeyValue | public/class-lti-platform-public.php:330 | `k=v` with no '=', space or dot in k splits into k and v |
| ContentItems.PieceAppended | public/class-lti-platform-public.php:330 | a plain `name=value` piece whose name is new is appended to the array parse_str has read so far |
| ContentItems.NameIsNew | public/class-lti-platform-public.php:330 | with distinct names, no pair's name appears earlier |
| ContentItems.ParseStep | public/class-lti-platform-public.php:330 | parse_str reads the next `k=v` piece as the next pair |
| ContentItems.ParseFrom | public/class-lti-platform-public.php:330 | parse_str of the pieces from the k-th on gives all the pairs |
| ContentItems.CustomRoundTrip | public/class-lti-platform-public.php:559-578 | a returned item's custom pairs, written by setAttribute, are read back by message() as the same pairs (names distinct and non-empty; no separators, no `+` or `%` that parse_str URL-decodes, and no space, dot or `[` in a name) |
| Admin.FormUris | admin/class-lti-platform-admin.php:372-377 | no URIs iff the trimmed field is empty; otherwise the field split on CR LF |
| Admin.VersionFor | admin/class-lti-platform-admin.php:380-386 | LTI 1.3 iff the login URL and the redirection URIs are non-empty; RS256 with 1.3, HMAC-SHA1 with 1.0 |
| Admin.FormSettingsRead | admin/class-lti-platform-admin.php:352-368 | each setting the form writes reads back as its value, or nothing when empty |
| Admin.PrivacyReadsTicked | admin/class-lti-platform-admin.php:352-355 | a privacy setting reads 'true' iff its checkbox was submitted as 'true' |
| Admin.FormSettingsKeepOthers | admin/class-lti-platform-admin.php:352-368 | settings the form does not name are kept |
| Admin.CustomLinesBecomePairs | admin/class-lti-platform-admin.php:368 | typed custom lines reach message() as the text with each CR LF turned into '&' |
| Admin.FormLti10SignsHmac | admin/class-lti-platform-admin.php:380-382 | a tool the form leaves on LTI 1.0 is also signed with HMAC-SHA1 at launch |
| Admin.ApplySettings | admin/class-lti-platform-admin.php:352-368 | the bag becomes the form's settings applied to the old bag |
| Admin.ApplyFields | admin/class-lti-platform-admin.php:365-386 | the properties become the form's (last access kept), with version and method chosen from them |
| Admin.ApplyForm | admin/class-lti-platform-admin.php:348-386 | name, code, flags, settings and properties are the form's, with the LTI version chosen from them |
| Admin.UpdateTool | admin/class-lti-platform-admin.php:346-388 | the form's name, lowercased code and version are set; a duplicate code saves nothing; otherwise enabled only if ticked and enableable, and the post holds the form's encoded settings |
| Admin.EditPage | admin/class-lti-platform-admin.php:317-336 | without manage_options nothing; a GET changes nothing; a POST with a bad nonce only gives the error notice; a valid one has update_tool's effect: the form's name, lowercased code, debug mode and version; a duplicate code saves nothing; otherwise `enabled` is gated by canBeEnabled and, when the save succeeds, the store holds the form's post |
| PhpText.ContainsAppend | public/class-lti-platform-public.php:571 | an occurrence in either part is an occurrence in their concatenation |
| PhpText.PrefixChar | public/class-lti-platform-public.php:242 | a prefix's characters are the text's |
| PhpText.ContainsAcrossSeparator | public/class-lti-platform-public.php:571 | an occurrence spanning a character absent from the needle lies on one side of it |
| PhpText.Replace | includes/class-lti-platform-dataconnector.php:260 | str_replace changes nothing when the search text does not occur |
| PhpText.ReplaceAtMatch | includes/class-lti-platform-dataconnector.php:260 | a leading match is replaced and the scan continues after it |
| PhpText.ReplaceBySelf | includes/class-lti-platform-dataconnector.php:260 | replacing a text by itself is the identity |
| PhpText.ReplacedPrefix | includes/class-lti-platform-dataconnector.php:276 | a prefix of the output free of the replacement's first character is a prefix of the input |
| PhpText.ReplaceCopiesPrefix | includes/class-lti-platform-dataconnector.php:276 | a prefix free of the search text's first character is copied unchanged |
| PhpText.Explode | admin/class-lti-platform-admin.php:374 | explode always gives at least one piece |
| PhpText.JoinExplode | admin/class-lti-platform-admin.php:374 | implode of explode with the same separator gives back the text |
| PhpText.ExplodeFirst | public/class-lti-platform-public.php:516-517 | the first piece is a prefix of the text without the separator |
| PhpText.ToLower | includes/class-lti-platform-tool.php:124 | strtolower keeps the length and lowers each ASCII capital |
| PhpText.TrimLeftSuffix | admin/class-lti-platform-admin.php:372 | left trimming keeps a suffix that does not start with a trim character |
| PhpText.TrimRightPrefix | admin/class-lti-platform-admin.php:372 | right trimming keeps a prefix that does not end with a trim character |
| PhpText.TrimStrips | public/class-lti-platform-public.php:332 | trim gives a slice of its input that neither starts nor ends with a trim character |
| PhpText.NatToString | public/class-lti-platform-public.php:260 | strval of a natural number is non-empty decimal digits |
| PhpText.IntToString | includes/class-lti-platform-tool.php:282 | strval of an integer is non-empty |
| PhpText.LeadingDigits | includes/class-lti-platform-tool.php:282 | the leading digits are a prefix of the text |
| PhpText.DigitsValueOfNat | includes/class-lti-platform-tool.php:282 | the digits of n have value n |
| PhpText.LeadingDigitsOfDigits | includes/class-lti-platform-tool.php:282 | all-digit text is its own leading digits |
| PhpText.IntValOfString | includes/class-lti-platform-dataconnector.php:262-266 | intval(strval(n)) == n, so stored days read back |
| PhpText.HexDigit | public/class-lti-platform-public.php:283 | a hex digit is a URL-encoded character |
| PhpText.Utf8 | public/class-lti-platform-public.php:283 | every UTF-8 byte is below 256 |
| PhpText.PercentBytes | public/class-lti-platform-public.php:283 | percent-encoding yields only URL-encoded characters |
| PhpText.UrlEncodeChar | public/class-lti-platform-public.php:283 | one encoded character yields only URL-encoded characters |
| PhpText.UrlEncode | public/class-lti-platform-public.php:283 | urlencode yields only letters, digits, `-_.+%`, and keeps text made of unreserved characters |

## Left out

- The ceLTIc library is not part of this model:
  - `Platform::sendMessage` and the library's `handleRequest`: OAuth 1 signing, the LTI 1.3 id_token, the OIDC redirect. `Launch.Message` returns the message it would send, and `Launch.HandleRequest` returns the platform configuration.
  - `Jwt::getJWKS`, `Content\Item::fromJson` and `toJsonldObject`. Items arrive as `PlatformV5.Item` values.
  - `Tool::initialize`, `fromRecordId`, `loadTool` and `deleteTool`.
  - `parent::fixToolSettings`, which stores and reads back the library's own properties (debug mode, LTI version, signature method). `DataConnector.FromPost` leaves them unchanged, so the model writes none of them to a post and every tool it loads has debug mode off.
- Launch.CheckLaunch: every loaded tool has `debugMode == false`, so a failed launch never carries the stored `_debug` flag that the program passes to its error page (public/class-lti-platform-public.php:225-227). `Launch.Message` inherits this.
- Launch.Message: `db` is taken to be the store of the blog the tool was loaded from. The model does not tie it to `network`, `site` or `tool.blogId`, where the program's save switches to the tool's blog (includes/class-lti-platform-dataconnector.php:105-107).
- WordPress APIs become parameters or simple data:
  - posts are `DataConnector.PostStore` maps;
  - `get_posts` is the list of ids it returns;
  - `wp_insert_post` success is the `accept` flag;
  - `get_page_by_path` gives the lowest id with the slug;
  - `switch_to_blog` means passing the network or site store. fromCode's `switch_to_blog(0)` (includes/class-lti-platform-tool.php:54) passes an empty blog id, with which WordPress stays on the current blog, so the "network" lookup may be a lookup in the site's own store. The model's network store is a separate parameter, and nothing in it assumes the two stores differ;
  - `current_user_can`, `get_post`, `get_bloginfo`, `get_site_url` and `get_option('siteurl')` are inputs. The model assumes the site URL and the `siteurl` option are the same text.
- The clock and the random ids are inputs. `time()`, `date`, `strtotime` and `gmdate` are reduced to day arithmetic on Unix seconds in a single time zone. The stored date text is modelled as `@<day start>` instead of the library's date format.
- The `sanitize_*`, `esc_*` and `wp_kses` functions are not modelled: values are taken as they arrive.
- `get_shortcode_regex` and `shortcode_parse_atts` are not modelled: the shortcodes of a post arrive as attribute maps.
- `parse_str`'s URL decoding and its `a[]` array keys are left out: a `+` or `%` is kept as it is, and so is a `[` in a name. `ContentItems.CustomRoundTrip` excludes these characters, so it holds of the program as well. A query piece is `name=value`, split at the first `=`; the name loses its leading spaces and has each space and dot turned into `_`, as parse_str registers it.
- The order of message parameters is left out: they are a map, not an ordered array.
- JSON: `json_encode` of the settings bag is the identity. For the redirection URIs, only the escaping of `"`, `\` and `/` is modelled, not `\uXXXX` for non-ASCII characters.
- The static options cache in `getOptions` is left out: the options are an explicit value.
- Admin notices (`add_action` with the save, duplicate, disabled and error notices) are left out.
- `renderTool`, `get_tools_list`, `get_tool`, `error_page`, `parse_request`, `register`, the list table, the partials and the JavaScript are left out. They are rendering and routing glue.
- `Contains` follows PHP 8, where an empty needle is found at offset 0. `date` does too: see Findings for the daily last-access check.
- ToolSettings.DecodeUris: json_decode of a JSON object, or of a list holding anything but strings, gives [] in the model. The source keeps any decoded array (includes/class-lti-platform-dataconnector.php:253-256). Only lists of strings are ever written there.
- PhpText.IntVal: reads an optional sign and the leading decimal digits only. PHP 7.1 and later also read a decimal point and an exponent (`intval('1e3')` is 1000) and saturate at the bounds of a 64-bit integer. This affects `Shortcode.Dimension` and `Launch.LaunchSize` for such width and height attributes.
- ToolRegistry.Save: when the code is a duplicate, the contract states that nothing is written and that `enabled`, `lastAccess`, `recordId` and `updated` are unchanged. It does not restate that the other properties and the settings bag are unchanged.
- Admin.UpdateTool: the contract does not restate the tool's properties after the save (`Reloaded` of the form's fields). `ToolRegistry.Save` and `Admin.ApplyForm` state them, and compose to it.
- DataConnector.WritePost: the properties it does not touch (name, code, flags, settings) follow from its `modifies` clause. They are not restated in its `ensures`.

## Findings

| source | as written | input that shows it | evidently intended | confidence | as-written member | corrected member |
|---|---|---|---|---|---|---|
| public/class-lti-platform-public.php:350-354 | the access is recorded when `date('Y-m-d')` differs from `date('Y-m-d', $tool->lastAccess)`; a tool never launched has a null last access, and under PHP 8 `date` with a null timestamp formats the current time | the first launch of any tool, on any day: the two dates are equal, so the last access stays null and is never recorded | a tool never launched has its first access recorded | high under PHP 8.0 or later (under PHP 7 null reads as 1 January 1970 and the access is recorded); not executed | Launch.AccessCheckAsWritten | Launch.RecordAccess |
