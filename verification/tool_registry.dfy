/**
 * LTI_Platform_Tool::save and LTI_Platform_Tool::fromCode: saving a tool
 * under a unique lower-case code, and finding the tool a code names, where
 * an enabled network tool takes precedence over a site tool.
 */
module ToolRegistry {
  import opened PhpText
  import opened LtiTool
  import opened ToolSettings
  import opened DataConnector

  /** What the platform's tool list gives save for each existing tool: its record id and code. */
  datatype Listed = Listed(recordId: nat, code: string)

  /** Some other record (a different record id) already uses the code. */
  predicate Duplicated(listed: seq<Listed>, recordId: nat, code: string) {
    exists i :: 0 <= i < |listed| && listed[i].recordId != recordId && listed[i].code == code
  }

  /** save's scan of the tool list: skip the tool's own record, stop at the first tool with the same code. */
  method FindDuplicate(listed: seq<Listed>, recordId: nat, code: string) returns (found: bool)
    ensures found <==> Duplicated(listed, recordId, code)
  {
    found := false;
    var i := 0;
    while i < |listed|
      invariant 0 <= i <= |listed|
      invariant !found
      invariant forall j :: 0 <= j < i ==> listed[j].recordId == recordId || listed[j].code != code
    {
      if listed[i].recordId == recordId {
      } else if listed[i].code == code {
        found := true;
        break;
      }
      i := i + 1;
    }
  }

  /**
   * save(): the code is lowered first; a duplicate code stops the save with
   * false; otherwise a tool that cannot be enabled is saved disabled, and
   * the result is saveTool's. `listed` is the platform's tool list and
   * `accept` whether the database write succeeds.
   */
  method Save(t: Tool, db: PostStore, listed: seq<Listed>, options: Options, currentBlog: int, now: int,
      accept: bool) returns (ok: bool)
    requires db.Valid()
    modifies t`code, t`enabled, t`settings, t`key, t`secret, t`messageUrl, t`useContentItem,
      t`contentItemUrl, t`initiateLoginUrl, t`redirectionUris, t`jku, t`rsaKey, t`lastAccess,
      t`recordId, t`blogId, t`created, t`updated, db
    ensures db.Valid()
    ensures t.code == ToLower(old(t.code))
    ensures Duplicated(listed, old(t.recordId), ToLower(old(t.code))) ==>
      !ok && db.posts == old(db.posts) && t.enabled == old(t.enabled) &&
      t.lastAccess == old(t.lastAccess) && t.recordId == old(t.recordId) && t.updated == old(t.updated)
    ensures !Duplicated(listed, old(t.recordId), ToLower(old(t.code))) ==>
      t.enabled == (old(t.enabled) && Enableable(old(t.Structured()), options)) &&
      t.Structured() == Reloaded(old(t.Structured())) &&
      (ok <==> accept && (old(t.recordId) == 0 || old(t.recordId) in old(db.posts))) &&
      (ok ==> t.updated == now && db.posts == old(db.posts)[t.recordId :=
        Post(t.name, t.code, StatusOf(t.deleted, t.enabled),
          EncodeFields(old(t.Structured()), old(t.settings)), t.created, now)]) &&
      (!ok ==> db.posts == old(db.posts))
  {
    t.code := ToLower(t.code);
    var duplicate := FindDuplicate(listed, t.recordId, t.code);
    ok := !duplicate;
    if ok {
      if t.enabled && !t.CanBeEnabled(options) {
        t.enabled := false;
      }
      ok := SaveTool(t, db, currentBlog, now, accept);
    }
  }

  /** Where fromCode finds a tool: a network post or a post of the current site. */
  datatype Found = Network(id: nat) | Site(id: nat)

  /**
   * The post fromCode loads for `code`: on a multisite network, the network
   * post with that slug if it is published (enabled); failing that, the
   * site post with that slug, enabled or not.
   */
  function Resolve(multisite: bool, network: PostStore, site: PostStore, code: string): (r: Option<Found>)
    reads network, site
    ensures r.Some? && r.value.Network? ==>
      multisite && r.value.id in network.posts && network.posts[r.value.id].slug == code &&
      EnabledIn(network.posts[r.value.id].status)
    ensures r.Some? && r.value.Site? ==>
      r.value.id in site.posts && site.posts[r.value.id].slug == code
    ensures r.None? ==> forall j :: 0 <= j < site.nextId && j in site.posts ==> site.posts[j].slug != code
    ensures !multisite ==> r.None? || r.value.Site?
  {
    var n := if multisite then PageByPath(network, code) else None;
    if n.Some? && EnabledIn(network.posts[n.value].status) then Some(Network(n.value))
    else
      match PageByPath(site, code)
      case Some(id) => Some(Site(id))
      case None => None
  }

  /** The post fromCode loads the tool from, when there is one. */
  function Posted(multisite: bool, network: PostStore, site: PostStore, code: string): (r: Option<Post>)
    reads network, site
    ensures r.Some? <==> Resolve(multisite, network, site, code).Some?
    ensures r.Some? ==> r.value.slug == code
  {
    match Resolve(multisite, network, site, code)
    case Some(Network(id)) => Some(network.posts[id])
    case Some(Site(id)) => Some(site.posts[id])
    case None => None
  }

  /**
   * An enabled network tool shadows any site tool with the same code, when it
   * is the network post get_page_by_path finds: the lowest id with that code.
   */
  lemma NetworkShadowsSite(network: PostStore, site: PostStore, code: string, id: nat)
    requires id in network.posts && network.posts[id].slug == code && EnabledIn(network.posts[id].status)
    requires network.Valid()
    requires forall j :: j in network.posts && network.posts[j].slug == code ==> id <= j
    ensures Resolve(true, network, site, code) == Some(Network(id))
  {
    assert PageByPath(network, code) == Some(id);
  }

  /** A disabled network tool does not hide the site tool of the same code. */
  lemma DisabledNetworkFallsBack(network: PostStore, site: PostStore, code: string, id: nat)
    requires PageByPath(network, code) == Some(id) && !EnabledIn(network.posts[id].status)
    ensures Resolve(true, network, site, code) == Resolve(false, network, site, code)
  {
  }

  /** fromCode($code): the tool Resolve names, freshly loaded from its post, or null. */
  method FromCode(code: string, multisite: bool, network: PostStore, site: PostStore, currentBlog: int,
      options: Options) returns (tool: Tool?)
    ensures tool == null <==> Resolve(multisite, network, site, code).None?
    ensures tool != null ==> fresh(tool)
    ensures match Resolve(multisite, network, site, code)
      case Some(Network(id)) => tool != null && LoadedFrom(tool, id, network.posts[id], 0)
      case Some(Site(id)) => tool != null && LoadedFrom(tool, id, site.posts[id], currentBlog)
      case None => true
    ensures tool != null ==> (Posted(multisite, network, site, code).Some? &&
      tool.Structured() == DecodeFields(Posted(multisite, network, site, code).value.content) &&
      tool.settings == StripReserved(Posted(multisite, network, site, code).value.content) &&
      tool.enabled == EnabledIn(Posted(multisite, network, site, code).value.status) &&
      tool.created == Posted(multisite, network, site, code).value.dateGmt && tool.code == code &&
      !tool.debugMode)
  {
    tool := null;
    if multisite {
      var post := PageByPath(network, code);
      if post.Some? {
        tool := ToolFromPost(network, post.value, 0, options);
        if !tool.enabled {
          tool := null;
        }
      }
    }
    if tool == null {
      var post := PageByPath(site, code);
      if post.Some? {
        tool := ToolFromPost(site, post.value, currentBlog, options);
      }
    }
  }
}
