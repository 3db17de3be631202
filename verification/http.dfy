/** Requests and responses of the backend's REST interface, and the
    authentication headers every request carries. The transport itself,
    multipart encoding and `Content-Type`/`Content-Length` headers are not
    modelled: a request is the method, URL, headers and ordered form fields. */
module Http {
  import opened Wrappers
  import opened Text
  import opened Xml
  import opened Records
  import opened MetadataJson

  datatype Header = Header(name: string, value: string)

  datatype Method = Get | Post

  /** The XML document an uploaded file holds, named by what it is
      generated from: the episode catalog of an event, or the access
      policy of a media package. */
  datatype XmlSource =
    | EpisodeCatalogOf(data: EventData)
    | PolicyOf(grants: seq<Grant>, mediaPackageId: string)

  /** One part of a multipart form. XML and JSON bodies are kept as the
      values they are generated from; a track is the path of the file
      streamed. */
  datatype Part =
    | Plain(value: string)
    | XmlFile(fileName: string, document: XmlSource)
    | Upload(path: string)
    | GrantsJson(grants: seq<Grant>)
    | MetadataJsonText(catalogs: seq<MetadataCatalog>)

  datatype FormField = FormField(name: string, part: Part)

  datatype Request = Request(verb: Method, url: string, headers: seq<Header>, form: seq<FormField>)

  /** A backend response; `Ok` is `fetch`'s `res.ok`. */
  datatype Response = Response(status: int, body: string) {
    predicate Ok() {
      200 <= status <= 299
    }
  }

  /** The backend credentials and host the service is constructed with. */
  datatype Config = Config(host: string, username: string, password: string)

  /** `getAuthHeader(roles)`: basic credentials, the user to act as, and
      the roles to run with only when there are any. `base64` is the
      base64 encoding of the text's bytes. */
  function AuthHeaders(config: Config, roles: seq<string>, base64: string -> string): (headers: seq<Header>)
    ensures |headers| == if |roles| > 0 then 3 else 2
    ensures headers[0] == Header("Authorization", "Basic " + base64(config.username + ":" + config.password))
    ensures headers[1] == Header("X-API-AS-USER", config.username)
    ensures |roles| > 0 ==> headers[2] == Header("X-RUN-WITH-ROLES", Join(roles, ','))
  {
    var basic := [
      Header("Authorization", "Basic " + base64(config.username + ":" + config.password)),
      Header("X-API-AS-USER", config.username)
    ];
    if |roles| > 0 then basic + [Header("X-RUN-WITH-ROLES", Join(roles, ','))] else basic
  }

  /** Header `i` is the first one called `name`. */
  predicate FirstHeaderNamed(headers: seq<Header>, name: string, i: int) {
    0 <= i < |headers| && headers[i].name == name && forall j :: 0 <= j < i ==> headers[j].name != name
  }

  /** The value of the first header called `name`. */
  function HeaderValue(headers: seq<Header>, name: string): (r: Option<string>)
    ensures r.None? <==> forall i :: 0 <= i < |headers| ==> headers[i].name != name
    ensures r.Some? ==> exists i :: FirstHeaderNamed(headers, name, i) && headers[i].value == r.value
  {
    if |headers| == 0 then None
    else if headers[0].name == name then
      assert FirstHeaderNamed(headers, name, 0);
      Some(headers[0].value)
    else
      var r := HeaderValue(headers[1..], name);
      if r.Some? then
        var i :| FirstHeaderNamed(headers[1..], name, i) && headers[1..][i].value == r.value;
        assert FirstHeaderNamed(headers, name, i + 1);
        r
      else r
  }

  /** The first header called `name` is header `i` when no earlier one has that name. */
  lemma HeaderAt(headers: seq<Header>, i: int)
    requires 0 <= i < |headers|
    requires forall j :: 0 <= j < i ==> headers[j].name != headers[i].name
    ensures HeaderValue(headers, headers[i].name) == Some(headers[i].value)
  {
    var r := HeaderValue(headers, headers[i].name);
    var k :| FirstHeaderNamed(headers, headers[i].name, k) && headers[k].value == r.value;
    assert k == i;
  }

  /** Looking up headers whose first two are the credentials and the acting user. */
  lemma AuthLookups(h: seq<Header>)
    requires |h| >= 2 && h[0].name == "Authorization" && h[1].name == "X-API-AS-USER"
    requires |h| == 2 || (|h| == 3 && h[2].name == "X-RUN-WITH-ROLES")
    ensures HeaderValue(h, "Authorization") == Some(h[0].value)
    ensures HeaderValue(h, "X-API-AS-USER") == Some(h[1].value)
    ensures HeaderValue(h, "X-RUN-WITH-ROLES") == if |h| == 3 then Some(h[2].value) else None
  {
    var roles := "X-RUN-WITH-ROLES";
    assert h[0].name != h[1].name by { assert h[0].name[0] != h[1].name[0]; }
    assert h[0].name != roles by { assert h[0].name[0] != roles[0]; }
    assert h[1].name != roles by { assert h[1].name[2] != roles[2]; }
    HeaderAt(h, 0);
    HeaderAt(h, 1);
    if |h| == 3 {
      HeaderAt(h, 2);
    }
  }

  /** Read by name, the headers carry the credentials and the user to act
      as always, and the acting roles, comma-joined, exactly when some are
      given. */
  lemma AuthHeadersByName(config: Config, roles: seq<string>, base64: string -> string)
    ensures var h := AuthHeaders(config, roles, base64);
      && HeaderValue(h, "Authorization") == Some("Basic " + base64(config.username + ":" + config.password))
      && HeaderValue(h, "X-API-AS-USER") == Some(config.username)
      && (HeaderValue(h, "X-RUN-WITH-ROLES").Some? <==> |roles| > 0)
      && (|roles| > 0 ==> HeaderValue(h, "X-RUN-WITH-ROLES") == Some(Join(roles, ',')))
  {
    AuthLookups(AuthHeaders(config, roles, base64));
  }

  /** The roles split back out of their header when none contains a comma. */
  lemma AuthRolesRoundTrip(config: Config, roles: seq<string>, base64: string -> string)
    requires |roles| > 0 && FreeOf(roles, ',')
    ensures var h := AuthHeaders(config, roles, base64);
      && HeaderValue(h, "X-RUN-WITH-ROLES").Some?
      && Split(HeaderValue(h, "X-RUN-WITH-ROLES").value, ',') == roles
  {
    AuthLookups(AuthHeaders(config, roles, base64));
    SplitJoin(roles, ',');
  }
}
