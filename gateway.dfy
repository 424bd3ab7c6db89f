// The Gateway: the credential gate, the headers every request carries, and
// the target and payload of each verb. The HTTP transport itself is not
// part of this model; a request is described by what would be sent.

module Api {
  import opened Values
  import opened Bodies

  /** One HTTP request: verb, target URL and the `json` option (absent when none is passed). */
  datatype Request = Request(verb: Verb, url: string, json: Option<Value>)

  const UserAgent := "Harvest API App"

  /** `hasCredentials()`: none of the three configuration values is null. */
  predicate Credentials(uri: Value, token: Value, accountId: Value) {
    !uri.Null? && !token.Null? && !accountId.Null?
  }

  /** The default headers of the HTTP client. */
  function Headers(token: Value, accountId: Value): (h: map<string, Value>)
    ensures h.Keys == {"Authorization", "Harvest-Account-Id", "User-Agent"}
    ensures h["Authorization"].Str? && |h["Authorization"].s| == 7 + |Text(token)|
    ensures h["Authorization"].s[..7] == "Bearer "
    ensures h["Authorization"].s[7..] == Text(token)
    ensures h["Harvest-Account-Id"] == accountId
    ensures h["User-Agent"] == Str(UserAgent)
  {
    map["Authorization" := Str("Bearer " + Text(token)),
        "Harvest-Account-Id" := accountId,
        "User-Agent" := Str(UserAgent)]
  }

  class Gateway {
    var uri: Value
    var token: Value
    var accountId: Value
    var headers: map<string, Value>

    /** The constructor's assignments; `Connect` adds the gate. */
    constructor Configure(uri: Value, token: Value, accountId: Value)
      ensures this.uri == uri && this.token == token && this.accountId == accountId
      ensures headers == Headers(token, accountId)
    {
      this.uri := uri;
      this.token := token;
      this.accountId := accountId;
      headers := Headers(token, accountId);
    }

    /**
     * `new Gateway()` with the configured `uri`, `token` and `account_id`:
     * throws when any of them is null, and otherwise holds them and the
     * client headers.
     */
    static method Connect(uri: Value, token: Value, accountId: Value) returns (r: Outcome<Gateway>)
      ensures r.Thrown? <==> !Credentials(uri, token, accountId)
      ensures r.Thrown? ==> r.error == MissingCredentials
      ensures r.Returned? ==>
                fresh(r.value) && r.value.HasCredentials()
                && r.value.uri == uri && r.value.token == token && r.value.accountId == accountId
                && r.value.headers == Headers(token, accountId)
    {
      var g := new Gateway.Configure(uri, token, accountId);
      if !g.HasCredentials() {
        return Thrown(MissingCredentials);
      }
      r := Returned(g);
    }

    /** `hasCredentials()`. */
    predicate HasCredentials()
      reads this
    {
      Credentials(uri, token, accountId)
    }

    /** The target of `get`, `post` and `patch`: the base URI followed by the path. */
    function Based(path: string): (url: string)
      reads this
      ensures |url| == |Text(uri)| + |path|
      ensures url[..|Text(uri)|] == Text(uri) && url[|Text(uri)|..] == path
    {
      Text(uri) + path
    }

    /** `getWithoutBase($uri, $data)`: GET on the bare path, no options. */
    function GetWithoutBase(path: string, data: Value): Request
      reads this
    {
      Request(GET, path, None)
    }

    /** `get($uri, $data)`. */
    function GetTo(path: string, data: Value): Request
      reads this
    {
      Request(GET, Based(path), Some(data))
    }

    /** `post($uri, $data)`. */
    function PostTo(path: string, data: Value): Request
      reads this
    {
      Request(POST, Based(path), Some(data))
    }

    /** `patch($uri, $data)`. */
    function PatchTo(path: string, data: Value): Request
      reads this
    {
      Request(PATCH, Based(path), Some(data))
    }

    /** `delete($uri)`: DELETE on the bare path. */
    function DeleteTo(path: string): Request
      reads this
    {
      Request(DELETE, path, None)
    }

    /**
     * The request a service call becomes when the service hands it to the
     * gateway: the body travels as the `json` option (null when the call
     * passes none), except on DELETE, which takes no body.
     */
    function Dispatch(c: Call): (req: Request)
      reads this
      requires c.sender == Api
      ensures req.verb == c.verb
      ensures c.verb != DELETE ==> req.url == Text(uri) + c.path
      ensures c.verb != DELETE ==> req.json == Some(if c.body.Some? then Dict(c.body.value) else Null)
      ensures c.verb == DELETE ==> req == Request(DELETE, c.path, None)
    {
      var data := if c.body.Some? then Dict(c.body.value) else Null;
      match c.verb
      case GET => GetTo(c.path, data)
      case POST => PostTo(c.path, data)
      case PATCH => PatchTo(c.path, data)
      case DELETE => DeleteTo(c.path)
    }
  }

  /**
   * Only null fails the gate: empty strings and any other values pass, and
   * a single null among the three makes it fail.
   */
  lemma GateOnlyRejectsNull(uri: Value, token: Value, accountId: Value)
    ensures Credentials(Str(""), Str(""), Str(""))
    ensures !Credentials(Null, token, accountId) && !Credentials(uri, Null, accountId) && !Credentials(uri, token, Null)
  {
  }

  /**
   * Two gateways that differ only in their base URI send the same
   * `delete` and `getWithoutBase` requests, and `getWithoutBase` ignores
   * its data; `get`, `post` and `patch` carry the base URI in front of
   * the path.
   */
  lemma BaseOnlyPrefixesBodies(g: Gateway, h: Gateway, path: string, data: Value, other: Value)
    requires g.uri.Str? && h.uri.Str? && g.uri != h.uri
    ensures g.DeleteTo(path) == h.DeleteTo(path)
    ensures g.GetWithoutBase(path, data) == h.GetWithoutBase(path, other)
    ensures g.GetTo(path, data).url != h.GetTo(path, data).url
    ensures g.PostTo(path, data).url != h.PostTo(path, data).url
    ensures g.PatchTo(path, data).url != h.PatchTo(path, data).url
  {
    var a, b := g.uri.s, h.uri.s;
    assert Text(g.uri) == a && Text(h.uri) == b;
    if |a| == |b| {
      assert (a + path)[..|a|] == a && (b + path)[..|b|] == b;
    } else {
      assert |a + path| != |b + path|;
    }
  }
}
