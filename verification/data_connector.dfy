/**
 * DataConnector_wp: a tool is kept as a WordPress post of the plugin's post
 * type. The post's slug is the tool code, its title the tool name, its
 * status the enabled/deleted flags, and its content the JSON of the settings
 * bag (with the structured properties stored under the reserved names).
 */
module DataConnector {
  import opened PhpText
  import opened LtiTool
  import opened ToolSettings

  datatype Status = Publish | Draft | Trash

  /** One post of a tool post type. The content is the decoded settings bag. */
  datatype Post = Post(title: string, slug: string, status: Status, content: Settings, dateGmt: int, modifiedGmt: int)

  /** saveTool's post status: trash wins over enabled. */
  function StatusOf(deleted: bool, enabled: bool): Status {
    if deleted then Trash else if enabled then Publish else Draft
  }

  /** fromPost: the flags read back from a status. */
  predicate DeletedIn(st: Status) { st == Trash }
  predicate EnabledIn(st: Status) { st == Publish }

  /** Saving then loading keeps `deleted`, and keeps `enabled` unless the tool was deleted. */
  lemma StatusRoundTrip(deleted: bool, enabled: bool)
    ensures DeletedIn(StatusOf(deleted, enabled)) == deleted
    ensures EnabledIn(StatusOf(deleted, enabled)) == (enabled && !deleted)
  {
  }

  /** A trashed tool reloads disabled, so restoring it saves a draft. */
  lemma RestoreGivesDraft(enabled: bool)
    ensures StatusOf(false, EnabledIn(StatusOf(true, enabled))) == Draft
  {
  }

  /** The posts of one tool post type on one blog, with WordPress's id counter. */
  class PostStore {
    var posts: map<nat, Post>
    var nextId: nat

    ghost predicate Valid()
      reads this
    {
      nextId >= 1 && forall id :: id in posts ==> 1 <= id < nextId
    }

    constructor()
      ensures Valid() && posts == map[]
    {
      posts, nextId := map[], 1;
    }

    /** wp_insert_post without an ID: a new post under a fresh id, or 0 when the database refuses it. */
    method Insert(p: Post, accept: bool) returns (id: nat)
      requires Valid()
      modifies this
      ensures Valid()
      ensures accept ==> id == old(nextId) && id !in old(posts) && posts == old(posts)[id := p]
      ensures !accept ==> id == 0 && posts == old(posts)
    {
      if accept {
        id := nextId;
        posts := posts[id := p];
        nextId := nextId + 1;
      } else {
        id := 0;
      }
    }

    /** wp_insert_post with an ID: the post is replaced; an unknown id is an error. */
    method Update(id: nat, p: Post, accept: bool) returns (ok: bool)
      requires Valid()
      modifies this`posts
      ensures Valid()
      ensures ok <==> accept && id in old(posts)
      ensures posts == if ok then old(posts)[id := p] else old(posts)
    {
      ok := accept && id in posts;
      if ok {
        posts := posts[id := p];
      }
    }
  }

  /** get_page_by_path($slug): the post of lowest id in [from, bound) with that slug. */
  function FindBySlug(posts: map<nat, Post>, slug: string, from: nat, bound: nat): (r: Option<nat>)
    ensures r.Some? ==> from <= r.value < bound && r.value in posts && posts[r.value].slug == slug
    ensures r.Some? ==> forall j :: from <= j < r.value && j in posts ==> posts[j].slug != slug
    ensures r.None? ==> forall j :: from <= j < bound && j in posts ==> posts[j].slug != slug
    decreases bound - from
  {
    if from >= bound then None
    else if from in posts && posts[from].slug == slug then Some(from)
    else FindBySlug(posts, slug, from + 1, bound)
  }

  function PageByPath(db: PostStore, slug: string): (r: Option<nat>)
    reads db
  {
    FindBySlug(db.posts, slug, 0, db.nextId)
  }

  /** The state fromPost gives a tool loaded from post `id` of blog `blogId`. */
  ghost predicate LoadedFrom(t: Tool, id: nat, p: Post, blogId: int)
    reads t
  {
    t.recordId == id && t.blogId == blogId && t.name == p.title && t.code == p.slug &&
    t.deleted == DeletedIn(p.status) && t.enabled == EnabledIn(p.status) &&
    t.created == p.dateGmt && t.updated == p.modifiedGmt &&
    t.Structured() == DecodeFields(p.content) && t.settings == StripReserved(p.content)
  }

  /** fixToolSettings: on save, write the structured properties into the bag; otherwise read them out of it. */
  method FixToolSettings(t: Tool, isSave: bool)
    modifies t`settings, t`key, t`secret, t`messageUrl, t`useContentItem, t`contentItemUrl,
      t`initiateLoginUrl, t`redirectionUris, t`jku, t`rsaKey, t`lastAccess
    ensures isSave ==> t.settings == EncodeFields(old(t.Structured()), old(t.settings))
    ensures isSave ==> t.Structured() == old(t.Structured())
    ensures !isSave ==> t.Structured() == DecodeFields(old(t.settings))
    ensures !isSave ==> t.settings == StripReserved(old(t.settings))
  {
    if isSave {
      StoreFields(t);
    } else {
      LoadFields(t);
    }
  }

  /** The saving half of fixToolSettings: each structured property is written into the bag under its reserved name. */
  method StoreFields(t: Tool)
    modifies t`settings
    ensures t.settings == EncodeFields(old(t.Structured()), old(t.settings))
  {
    t.settings := EncodeFields(t.Structured(), t.settings);
  }

  /**
   * The loading half of fixToolSettings: each reserved setting is read into
   * its property and then removed (setSetting with no value).
   */
  method LoadFields(t: Tool)
    modifies t`settings, t`key, t`secret, t`messageUrl, t`useContentItem, t`contentItemUrl,
      t`initiateLoginUrl, t`redirectionUris, t`jku, t`rsaKey, t`lastAccess
    ensures t.Structured() == DecodeFields(old(t.settings))
    ensures t.settings == StripReserved(old(t.settings))
  {
    var f := DecodeFields(t.settings);
    var rest := StripReserved(t.settings);
    t.key, t.secret, t.messageUrl, t.useContentItem, t.contentItemUrl, t.initiateLoginUrl,
      t.redirectionUris, t.jku, t.rsaKey, t.lastAccess, t.settings :=
      f.key, f.secret, f.messageUrl, f.useContentItem, f.contentItemUrl, f.initiateLoginUrl,
      f.redirectionUris, f.jku, f.rsaKey, f.lastAccess, rest;
  }

  /** fromPost($tool, $post, $blogId). */
  method FromPost(t: Tool, id: nat, p: Post, blogId: int)
    modifies t`recordId, t`blogId, t`name, t`code, t`deleted, t`enabled, t`created, t`updated, t`settings,
      t`key, t`secret, t`messageUrl, t`useContentItem, t`contentItemUrl, t`initiateLoginUrl, t`redirectionUris,
      t`jku, t`rsaKey, t`lastAccess
    ensures LoadedFrom(t, id, p, blogId)
    ensures t.debugMode == old(t.debugMode) && t.ltiVersion == old(t.ltiVersion)
    ensures t.signatureMethod == old(t.signatureMethod)
  {
    LoadRecord(t, id, p, blogId);
    LoadFields(t);
  }

  /** fromPost's copy of the post's id, title, slug, status, dates and content onto the tool. */
  method LoadRecord(t: Tool, id: nat, p: Post, blogId: int)
    modifies t`recordId, t`blogId, t`name, t`code, t`deleted, t`enabled, t`created, t`updated, t`settings
    ensures t.recordId == id && t.blogId == blogId && t.name == p.title && t.code == p.slug
    ensures t.deleted == DeletedIn(p.status) && t.enabled == EnabledIn(p.status)
    ensures t.created == p.dateGmt && t.updated == p.modifiedGmt && t.settings == p.content
  {
    t.recordId := id;
    t.blogId := blogId;
    t.name := p.title;
    t.code := p.slug;
    t.deleted := p.status == Trash;
    t.enabled := p.status == Publish;
    t.created := p.dateGmt;
    t.updated := p.modifiedGmt;
    t.settings := p.content;
  }

  /**
   * saveTool($tool): the post is written with the encoded bag, the tool keeps
   * its decoded properties, and on success it learns its record id, blog and
   * creation time (new records) and its update time. `accept` is whether the
   * database write succeeds.
   */
  method SaveTool(t: Tool, db: PostStore, currentBlog: int, now: int, accept: bool) returns (ok: bool)
    requires db.Valid()
    modifies t`settings, t`key, t`secret, t`messageUrl, t`useContentItem, t`contentItemUrl,
      t`initiateLoginUrl, t`redirectionUris, t`jku, t`rsaKey, t`lastAccess,
      t`recordId, t`blogId, t`created, t`updated, db
    ensures db.Valid()
    ensures t.deleted == old(t.deleted) && t.enabled == old(t.enabled)
    ensures t.name == old(t.name) && t.code == old(t.code)
    ensures t.Structured() == Reloaded(old(t.Structured()))
    ensures t.settings == StripReserved(old(t.settings))
    ensures ok <==> accept && (old(t.recordId) == 0 || old(t.recordId) in old(db.posts))
    ensures ok && old(t.recordId) == 0 ==>
      t.recordId == old(db.nextId) && t.recordId !in old(db.posts) &&
      t.blogId == currentBlog && t.created == now
    ensures ok && old(t.recordId) != 0 ==>
      t.recordId == old(t.recordId) && t.blogId == old(t.blogId) && t.created == old(t.created)
    ensures ok ==> t.updated == now && db.posts == old(db.posts)[t.recordId :=
      Post(t.name, t.code, StatusOf(t.deleted, t.enabled),
        EncodeFields(old(t.Structured()), old(t.settings)), t.created, now)]
    ensures !ok ==> (db.posts == old(db.posts) && t.recordId == old(t.recordId) &&
      t.blogId == old(t.blogId) && t.created == old(t.created) && t.updated == old(t.updated))
  {
    StoredThenLoaded(t.Structured(), t.settings);
    var content := EncodeAndReload(t);
    ok := WritePost(t, db, content, currentBlog, now, accept);
  }

  /**
   * The settings half of saveTool: the JSON content is taken between
   * fixToolSettings($tool, true) and fixToolSettings($tool, false).
   */
  method EncodeAndReload(t: Tool) returns (content: Settings)
    modifies t`settings, t`key, t`secret, t`messageUrl, t`useContentItem, t`contentItemUrl,
      t`initiateLoginUrl, t`redirectionUris, t`jku, t`rsaKey, t`lastAccess
    ensures content == EncodeFields(old(t.Structured()), old(t.settings))
    ensures t.recordId == old(t.recordId) && t.blogId == old(t.blogId)
    ensures t.created == old(t.created) && t.updated == old(t.updated)
    ensures t.name == old(t.name) && t.code == old(t.code)
    ensures t.deleted == old(t.deleted) && t.enabled == old(t.enabled)
    ensures t.Structured() == DecodeFields(content)
    ensures t.settings == StripReserved(old(t.settings))
  {
    StripEncode(t.Structured(), t.settings);
    StoreFields(t);
    content := t.settings;
    LoadFields(t);
  }

  /** The database half of saveTool: insert or update the post, then record id, blog and times. */
  method WritePost(t: Tool, db: PostStore, content: Settings, currentBlog: int, now: int, accept: bool)
    returns (ok: bool)
    requires db.Valid()
    modifies t`recordId, t`blogId, t`created, t`updated, db
    ensures db.Valid()
    ensures ok <==> accept && (old(t.recordId) == 0 || old(t.recordId) in old(db.posts))
    ensures ok && old(t.recordId) == 0 ==>
      t.recordId == old(db.nextId) && t.recordId !in old(db.posts) &&
      t.blogId == currentBlog && t.created == now
    ensures ok && old(t.recordId) != 0 ==>
      t.recordId == old(t.recordId) && t.blogId == old(t.blogId) && t.created == old(t.created)
    ensures ok ==> t.updated == now && db.posts == old(db.posts)[t.recordId :=
      Post(t.name, t.code, StatusOf(t.deleted, t.enabled), content, t.created, now)]
    ensures !ok ==> (db.posts == old(db.posts) && t.recordId == old(t.recordId) &&
      t.blogId == old(t.blogId) && t.created == old(t.created) && t.updated == old(t.updated))
  {
    var status := StatusOf(t.deleted, t.enabled);
    if t.recordId != 0 {
      var post := Post(t.name, t.code, status, content, t.created, now);
      ok := db.Update(t.recordId, post, accept);
    } else {
      var post := Post(t.name, t.code, status, content, now, now);
      var id := db.Insert(post, accept);
      ok := id != 0;
      if ok {
        t.recordId := id;
        t.blogId := currentBlog;
        t.created := now;
      }
    }
    if ok {
      t.updated := now;
    }
  }

  /** trashTool: mark deleted and save. */
  method TrashTool(t: Tool, db: PostStore, currentBlog: int, now: int, accept: bool) returns (ok: bool)
    requires db.Valid()
    modifies t`deleted, t`settings, t`key, t`secret, t`messageUrl, t`useContentItem, t`contentItemUrl,
      t`initiateLoginUrl, t`redirectionUris, t`jku, t`rsaKey, t`lastAccess,
      t`recordId, t`blogId, t`created, t`updated, db
    ensures db.Valid() && t.deleted && t.enabled == old(t.enabled)
    ensures t.name == old(t.name) && t.code == old(t.code)
    ensures t.Structured() == Reloaded(old(t.Structured()))
    ensures t.settings == StripReserved(old(t.settings))
    ensures ok <==> accept && (old(t.recordId) == 0 || old(t.recordId) in old(db.posts))
    ensures ok && old(t.recordId) == 0 ==>
      t.recordId == old(db.nextId) && t.recordId !in old(db.posts) &&
      t.blogId == currentBlog && t.created == now
    ensures ok && old(t.recordId) != 0 ==>
      t.recordId == old(t.recordId) && t.blogId == old(t.blogId) && t.created == old(t.created)
    ensures ok ==> t.updated == now && db.posts == old(db.posts)[t.recordId :=
      Post(t.name, t.code, Trash, EncodeFields(old(t.Structured()), old(t.settings)), t.created, now)]
    ensures !ok ==> (db.posts == old(db.posts) && t.recordId == old(t.recordId) &&
      t.blogId == old(t.blogId) && t.created == old(t.created) && t.updated == old(t.updated))
  {
    t.deleted := true;
    ok := SaveTool(t, db, currentBlog, now, accept);
  }

  /** restoreTool: clear deleted and save; the post becomes published or draft by `enabled`. */
  method RestoreTool(t: Tool, db: PostStore, currentBlog: int, now: int, accept: bool) returns (ok: bool)
    requires db.Valid()
    modifies t`deleted, t`settings, t`key, t`secret, t`messageUrl, t`useContentItem, t`contentItemUrl,
      t`initiateLoginUrl, t`redirectionUris, t`jku, t`rsaKey, t`lastAccess,
      t`recordId, t`blogId, t`created, t`updated, db
    ensures db.Valid() && !t.deleted && t.enabled == old(t.enabled)
    ensures t.name == old(t.name) && t.code == old(t.code)
    ensures t.Structured() == Reloaded(old(t.Structured()))
    ensures t.settings == StripReserved(old(t.settings))
    ensures ok <==> accept && (old(t.recordId) == 0 || old(t.recordId) in old(db.posts))
    ensures ok && old(t.recordId) == 0 ==>
      t.recordId == old(db.nextId) && t.recordId !in old(db.posts) &&
      t.blogId == currentBlog && t.created == now
    ensures ok && old(t.recordId) != 0 ==>
      t.recordId == old(t.recordId) && t.blogId == old(t.blogId) && t.created == old(t.created)
    ensures ok ==> t.updated == now && db.posts == old(db.posts)[t.recordId :=
      Post(t.name, t.code, if t.enabled then Publish else Draft, EncodeFields(old(t.Structured()), old(t.settings)), t.created, now)]
    ensures !ok ==> (db.posts == old(db.posts) && t.recordId == old(t.recordId) &&
      t.blogId == old(t.blogId) && t.created == old(t.created) && t.updated == old(t.updated))
  {
    t.deleted := false;
    ok := SaveTool(t, db, currentBlog, now, accept);
  }

  /** The last of `ids` whose post has slug `code`: the entry that survives in a map keyed by code. */
  function Latest(ids: seq<nat>, posts: map<nat, Post>, code: string): (r: Option<nat>)
    requires forall i :: 0 <= i < |ids| ==> ids[i] in posts
    ensures r.Some? ==> r.value in posts && posts[r.value].slug == code
    decreases |ids|
  {
    if ids == [] then None
    else if posts[ids[|ids| - 1]].slug == code then Some(ids[|ids| - 1])
    else Latest(ids[..|ids| - 1], posts, code)
  }

  /** There is a latest post for a code exactly when some post has it, and no later post has it. */
  lemma {:induction false} LatestIsLast(ids: seq<nat>, posts: map<nat, Post>, code: string)
    requires forall i :: 0 <= i < |ids| ==> ids[i] in posts
    ensures Latest(ids, posts, code).Some? <==> exists i :: 0 <= i < |ids| && posts[ids[i]].slug == code
    ensures Latest(ids, posts, code).Some? ==> exists i :: (0 <= i < |ids| && ids[i] == Latest(ids, posts, code).value &&
      forall j :: i < j < |ids| ==> posts[ids[j]].slug != code)
    decreases |ids|
  {
    if ids != [] {
      var n := |ids| - 1;
      if posts[ids[n]].slug != code {
        var front := ids[..n];
        assert forall i :: 0 <= i < n ==> front[i] == ids[i];
        LatestIsLast(front, posts, code);
        if Latest(ids, posts, code).Some? {
          var i :| 0 <= i < n && front[i] == Latest(front, posts, code).value &&
            forall j :: i < j < n ==> posts[front[j]].slug != code;
          assert ids[i] == Latest(ids, posts, code).value;
        }
      } else {
        assert ids[n] == Latest(ids, posts, code).value;
      }
    }
  }

  /** One more id at the end either becomes the latest for its code or leaves the other codes alone. */
  lemma LatestStep(ids: seq<nat>, i: nat, posts: map<nat, Post>, code: string)
    requires i < |ids| && forall k :: 0 <= k < |ids| ==> ids[k] in posts
    ensures Latest(ids[..i + 1], posts, code) ==
      if posts[ids[i]].slug == code then Some(ids[i]) else Latest(ids[..i], posts, code)
  {
    assert ids[..i + 1][..i] == ids[..i];
  }

  /**
   * A new tool loaded from one post. Debug mode is one of the library's own
   * stored properties, which are not read back here, so it stays off.
   */
  method ToolFromPost(db: PostStore, id: nat, blogId: int, options: Options) returns (t: Tool)
    requires id in db.posts
    ensures fresh(t) && LoadedFrom(t, id, db.posts[id], blogId)
    ensures !t.debugMode
  {
    t := new Tool(options);
    FromPost(t, id, db.posts[id], blogId);
  }

  /**
   * getToolsWithArgs: one freshly loaded tool per post that the query
   * returned (`ids`, in the query's order), keyed by code, so a later post
   * with the same code replaces an earlier one.
   */
  method GetToolsWithArgs(db: PostStore, ids: seq<nat>, blogId: int, options: Options)
    returns (tools: map<string, Tool>)
    requires forall i :: 0 <= i < |ids| ==> ids[i] in db.posts
    ensures forall c :: c in tools <==> Latest(ids, db.posts, c).Some?
    ensures forall c :: c in tools ==> (fresh(tools[c]) &&
      LoadedFrom(tools[c], Latest(ids, db.posts, c).value, db.posts[Latest(ids, db.posts, c).value], blogId))
  {
    tools := map[];
    var i := 0;
    while i < |ids|
      invariant 0 <= i <= |ids|
      invariant forall c :: c in tools <==> Latest(ids[..i], db.posts, c).Some?
      invariant forall c :: c in tools ==> (fresh(tools[c]) &&
        LoadedFrom(tools[c], Latest(ids[..i], db.posts, c).value, db.posts[Latest(ids[..i], db.posts, c).value], blogId))
    {
      var t := ToolFromPost(db, ids[i], blogId, options);
      forall c {
        LatestStep(ids, i, db.posts, c);
      }
      tools := tools[t.code := t];
      i := i + 1;
    }
    assert ids[..i] == ids;
  }
}
