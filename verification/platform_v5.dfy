/**
 * LTI_Platform_Platform: the plugin's hooks into the LTI library's platform.
 * Initiating an LTI 1.3 login stores the message under the current user;
 * authentication consumes that state and accepts the request only when its
 * login hint (and any stored message hint) match; a returned content-item
 * message is accepted only when it carries exactly one LTI link.
 */
module PlatformV5 {
  import opened PhpText
  import opened LtiTool

  /** Message parameters: a PHP array of named string values. */
  type Params = map<string, string>

  /** The 'lti-platform-login' user option that onInitiateLogin writes. */
  datatype Login = Login(messageUrl: string, loginHint: string, params: Params, messageHint: Option<string>)

  /** The per-user option store; setting a user's option to null removes the entry. */
  class UserLogins {
    var logins: map<nat, Login>

    constructor()
      ensures logins == map[]
    {
      logins := map[];
    }

    /** get_user_option: the stored login, or nothing (PHP false/null). */
    function Stored(user: nat): (r: Option<Login>)
      reads this
      ensures r.Some? <==> user in logins
      ensures r.Some? ==> r.value == logins[user]
    {
      if user in logins then Some(logins[user]) else None
    }
  }

  /** The request parameters onAuthenticate compares; None for a parameter that is absent. */
  datatype AuthRequest = AuthRequest(loginHint: Option<string>, messageHint: Option<string>)

  /** A placement advice returned with a content item. */
  datatype Placement = Placement(target: string, width: string, height: string)

  /** A value that setAttribute serialises: a scalar, or an array of key/value pairs. */
  datatype AttrValue = Scalar(text: string) | Pairs(pairs: seq<(string, string)>)

  /** The JSON-LD object of a returned item, as far as content() reads it. */
  datatype ItemObject = ItemObject(title: string, url: string, placement: Option<Placement>, custom: AttrValue)

  /** An item of a content-item message: whether it is an LTI link (or assignment), and its object. */
  datatype Item = Item(ltiLink: bool, obj: ItemObject)

  /** The platform object's state that the hooks set. */
  class Platform {
    var ok: bool
    var reason: string
    var messageParameters: Params
    var contentItem: Option<ItemObject>

    constructor()
      ensures ok && reason == "" && messageParameters == map[] && contentItem == None
    {
      ok, reason, messageParameters, contentItem := true, "", map[], None;
    }
  }

  /**
   * onAuthenticate's test: the request's login hint must equal the stored one
   * (absent on both sides when nothing is stored), and a stored message hint
   * must be matched by an equal one in the request.
   */
  predicate Accepted(stored: Option<Login>, req: AuthRequest) {
    req.loginHint == (if stored.Some? then Some(stored.value.loginHint) else None) &&
    (stored.Some? && stored.value.messageHint.Some? ==> req.messageHint == stored.value.messageHint)
  }

  /**
   * onInitiateLogin: the message URL, login hint and parameters are stored
   * under the user, without a message hint, and the outgoing message hint is
   * cleared.
   */
  method OnInitiateLogin(store: UserLogins, user: nat, url: string, loginHint: string, messageHint: Option<string>,
      params: Params) returns (outHint: Option<string>)
    modifies store
    ensures outHint == None
    ensures store.logins == old(store.logins)[user := Login(url, loginHint, params, None)]
  {
    outHint := None;
    store.logins := store.logins[user := Login(url, loginHint, params, None)];
  }

  /**
   * onAuthenticate: the user's stored login is read and cleared first; a
   * request that fails Accepted sets ok to false and the error
   * 'access_denied'; otherwise the tool's message URL and the message
   * parameters are restored from the stored state (a missing state restores
   * an empty URL and no parameters).
   */
  method OnAuthenticate(p: Platform, store: UserLogins, user: nat, tool: Tool, req: AuthRequest)
    modifies p`ok, p`messageParameters, store, tool`messageUrl
    ensures store.logins == old(store.logins) - {user}
    ensures !Accepted(old(store.Stored(user)), req) ==>
      !p.ok && p.messageParameters == old(p.messageParameters)["error" := "access_denied"] &&
      tool.messageUrl == old(tool.messageUrl)
    ensures Accepted(old(store.Stored(user)), req) ==>
      p.ok == old(p.ok) &&
      tool.messageUrl == (if user in old(store.logins) then old(store.logins)[user].messageUrl else "") &&
      p.messageParameters == (if user in old(store.logins) then old(store.logins)[user].params else map[])
  {
    var login := store.Stored(user);
    store.logins := store.logins - {user};
    if !Accepted(login, req) {
      p.ok := false;
      p.messageParameters := p.messageParameters["error" := "access_denied"];
    } else if login.Some? {
      tool.messageUrl := login.value.messageUrl;
      p.messageParameters := login.value.params;
    } else {
      tool.messageUrl := "";
      p.messageParameters := map[];
    }
  }

  /** What the plugin's own login state makes of a request: with no message hint stored, only the login hint counts. */
  lemma OwnStateNeedsLoginHintOnly(url: string, hint: string, params: Params, req: AuthRequest)
    ensures Accepted(Some(Login(url, hint, params, None)), req) <==> req.loginHint == Some(hint)
  {
  }

  /** Once the state is cleared, a request that carries a login hint is rejected. */
  lemma ReplayRejected(req: AuthRequest)
    requires req.loginHint.Some?
    ensures !Accepted(None, req)
  {
  }

  /** A stored message hint must be repeated exactly. */
  lemma MessageHintRequired(stored: Login, req: AuthRequest)
    requires stored.messageHint.Some? && req.messageHint != stored.messageHint
    ensures !Accepted(Some(stored), req)
  {
  }

  /** The outcome of onContentItem: the accepted item, or the reason it was refused. */
  function ItemsVerdict(items: seq<Item>): (r: Result<ItemObject>)
    ensures r.Success? <==> |items| == 1 && items[0].ltiLink
    ensures r.Success? ==> r.value == items[0].obj
    ensures |items| == 0 ==> r == Failure("No items returned")
    ensures |items| > 1 ==> r == Failure("More than one item has been returned")
    ensures |items| == 1 && !items[0].ltiLink ==> r == Failure("Item must be an LTI link or assignment")
  {
    if |items| == 0 then Failure("No items returned")
    else if |items| > 1 then Failure("More than one item has been returned")
    else if !items[0].ltiLink then Failure("Item must be an LTI link or assignment")
    else Success(items[0].obj)
  }

  /** onContentItem: ok only for a single LTI link, whose object becomes the content item. */
  method OnContentItem(p: Platform, items: seq<Item>)
    modifies p`ok, p`reason, p`contentItem
    ensures p.ok <==> ItemsVerdict(items).Success?
    ensures p.ok ==> p.contentItem == Some(ItemsVerdict(items).value) && p.reason == old(p.reason)
    ensures !p.ok ==> p.reason == ItemsVerdict(items).error && p.contentItem == old(p.contentItem)
  {
    p.ok := false;
    if |items| == 0 {
      p.reason := "No items returned";
    } else if |items| > 1 {
      p.reason := "More than one item has been returned";
    } else if !items[0].ltiLink {
      p.reason := "Item must be an LTI link or assignment";
    } else {
      p.ok := true;
      p.contentItem := Some(items[0].obj);
    }
  }
}
