/** The ingest client of `OpencastService`: the REST calls it makes, the
    choice of access-control list, and the five-step media-package
    protocol of `createEventMultiRequest` as a state machine that threads
    the manifest returned by each step into the next.

    Everything the client cannot see is a field of `Environment`: the
    backend answers a request given the requests sent before it, and the
    XML parser, JSON decoders, base64 encoder and file-system check stand
    for the libraries the source calls. */
module Opencast {
  import opened Wrappers
  import opened Text
  import opened Xml
  import opened Records
  import opened MetadataJson
  import opened Http
  import opened MediaPackage
  import EpisodeCatalog
  import AclPolicy

  /** `AttachmentType`: which ingest endpoint receives a file. */
  datatype AttachmentKind = Attachment | Catalog | Track

  /** Why a call or a run failed; backend failures carry the status and,
      where the source's message includes it, the response body. */
  datatype Failure =
    | CreateFailed(status: int, body: string)
    | AddFailed(kind: AttachmentKind, status: int, body: string)
    | AclListFailed(status: int)
    | SeriesLookupFailed(title: string, status: int)
    | EventCreateFailed(status: int, body: string)
    | NoAclConfigured
    | TemplateNotFound(name: string)
    | FileUnreadable(path: string)
    | MalformedXml(document: string)
    | MalformedJson(body: string)

  /** A named access-control template of the backend and its entries. */
  datatype AclTemplate = AclTemplate(name: string, ace: seq<Grant>)

  datatype Environment = Environment(
    config: Config,
    backend: (seq<Request>, Request) -> Response,
    parseXml: string -> Option<Element>,
    decodeTemplates: string -> Option<seq<AclTemplate>>,
    decodeIdentifier: string -> Option<string>,
    base64: string -> string,
    readable: string -> bool)

  /** `longer` starts with `shorter`: requests once sent stay sent. */
  predicate Extends(longer: seq<Request>, shorter: seq<Request>) {
    |shorter| <= |longer| && longer[..|shorter|] == shorter
  }

  /** The requests sent so far, and the value or failure of a call. */
  datatype Outcome<+T> = Outcome(trace: seq<Request>, result: Result<T, Failure>)

  const CatalogFlavor := "dublincore/episode"
  const TrackFlavor := "presentation/source"
  const AclFlavor := "security/xacml+episode"
  const IngestWorkflow := "schedule-and-upload"

  /** Every call authenticates with `getAuthHeader()`, without roles. */
  function Headers(env: Environment): seq<Header> {
    AuthHeaders(env.config, [], env.base64)
  }

  function Endpoint(kind: AttachmentKind): string {
    match kind
    case Attachment => "/ingest/addAttachment"
    case Catalog => "/ingest/addCatalog"
    case Track => "/ingest/addTrack"
  }

  /** Different kinds of file go to different endpoints. */
  lemma EndpointsDistinct(a: AttachmentKind, b: AttachmentKind)
    ensures Endpoint(a) == Endpoint(b) <==> a == b
  {
    if a != b {
      assert Endpoint(a)[8] != Endpoint(b)[8] || |Endpoint(a)| != |Endpoint(b)|;
    }
  }

  // ---------------------------------------------------------------------
  // Requests

  function CreateRequest(env: Environment): Request {
    Request(Get, env.config.host + "/ingest/createMediaPackage", Headers(env), [])
  }

  function AddFileRequest(env: Environment, mediaPackage: string, file: Part, flavor: string, kind: AttachmentKind): Request {
    Request(Post, env.config.host + Endpoint(kind), Headers(env), [
      FormField("mediaPackage", Plain(mediaPackage)),
      FormField("flavor", Plain(flavor)),
      FormField("BODY1", file)
    ])
  }

  function IngestRequest(env: Environment, mediaPackage: string, workflowDefinitionId: string, workflowInstanceId: string): Request {
    Request(Post, env.config.host + "/ingest/ingest", Headers(env), [
      FormField("mediaPackage", Plain(mediaPackage)),
      FormField("workflowDefinitionId", Plain(workflowDefinitionId)),
      FormField("workflowInstanceId", Plain(workflowInstanceId))
    ])
  }

  function TemplatesRequest(env: Environment): Request {
    Request(Get, env.config.host + "/acl-manager/acl/acls.json", Headers(env), [])
  }

  function SeriesRequest(env: Environment, title: string): Request {
    Request(Get, env.config.host + "/api/series/series.json?seriesTitle=" + title, Headers(env), [])
  }

  function EventRequest(env: Environment, grants: seq<Grant>, d: EventData): Request {
    Request(Post, env.config.host + "/api/events", Headers(env), [
      FormField("acl", GrantsJson(grants)),
      FormField("metadata", MetadataJsonText(EventMetadataJson(d))),
      FormField("processing", Plain(d.processing)),
      FormField("presentation", Upload(d.filePath))
    ])
  }

  // ---------------------------------------------------------------------
  // Calls

  /** `createMediaPackage()`: the new, empty manifest. */
  function CreateMediaPackage(env: Environment, trace: seq<Request>): (o: Outcome<string>)
    ensures o.trace == trace + [CreateRequest(env)]
    ensures var reply := env.backend(trace, CreateRequest(env));
      && (o.result.Ok? <==> reply.Ok())
      && (o.result.Ok? ==> o.result.value == reply.body)
      && (o.result.Err? ==> o.result.error == CreateFailed(reply.status, reply.body))
  {
    var request := CreateRequest(env);
    var reply := env.backend(trace, request);
    Outcome(trace + [request], if reply.Ok() then Ok(reply.body) else Err(CreateFailed(reply.status, reply.body)))
  }

  /** `addFile(...)`: the manifest with `file` added under `flavor`. */
  function AddFile(env: Environment, trace: seq<Request>, mediaPackage: string, file: Part, flavor: string, kind: AttachmentKind): (o: Outcome<string>)
    ensures o.trace == trace + [AddFileRequest(env, mediaPackage, file, flavor, kind)]
    ensures var reply := env.backend(trace, AddFileRequest(env, mediaPackage, file, flavor, kind));
      && (o.result.Ok? <==> reply.Ok())
      && (o.result.Ok? ==> o.result.value == reply.body)
      && (o.result.Err? ==> o.result.error == AddFailed(kind, reply.status, reply.body))
  {
    var request := AddFileRequest(env, mediaPackage, file, flavor, kind);
    var reply := env.backend(trace, request);
    Outcome(trace + [request], if reply.Ok() then Ok(reply.body) else Err(AddFailed(kind, reply.status, reply.body)))
  }

  /** The document an XML file part holds. */
  function Render(source: XmlSource): Element {
    match source
    case EpisodeCatalogOf(d) => EpisodeCatalog.Catalog(d)
    case PolicyOf(grants, id) => AclPolicy.PolicyDocument(grants, id)
  }

  /** `addDCCatalog(...)`. */
  function AddDCCatalog(env: Environment, trace: seq<Request>, mediaPackage: string, dublinCore: XmlSource, flavor: string): (o: Outcome<string>)
    ensures o.trace == trace + [AddFileRequest(env, mediaPackage, XmlFile("dublincore-episode.xml", dublinCore), flavor, Catalog)]
    ensures var reply := env.backend(trace, AddFileRequest(env, mediaPackage, XmlFile("dublincore-episode.xml", dublinCore), flavor, Catalog));
      && (o.result.Ok? <==> reply.Ok())
      && (o.result.Ok? ==> o.result.value == reply.body)
      && (o.result.Err? ==> o.result.error == AddFailed(Catalog, reply.status, reply.body))
  {
    AddFile(env, trace, mediaPackage, XmlFile("dublincore-episode.xml", dublinCore), flavor, Catalog)
  }

  /** `addTrack(...)`: opening the file fails before anything is sent. */
  function AddTrack(env: Environment, trace: seq<Request>, mediaPackage: string, filePath: string, flavor: string): (o: Outcome<string>)
    ensures !env.readable(filePath) ==> o == Outcome(trace, Err(FileUnreadable(filePath)))
    ensures env.readable(filePath) ==> o == AddFile(env, trace, mediaPackage, Upload(filePath), flavor, Track)
    ensures Extends(o.trace, trace)
  {
    if !env.readable(filePath) then Outcome(trace, Err(FileUnreadable(filePath)))
    else AddFile(env, trace, mediaPackage, Upload(filePath), flavor, Track)
  }

  /** `addAttachment(...)`. */
  function AddAttachment(env: Environment, trace: seq<Request>, mediaPackage: string, attachment: XmlSource, flavor: string): (o: Outcome<string>)
    ensures o.trace == trace + [AddFileRequest(env, mediaPackage, XmlFile("attachment.xml", attachment), flavor, Attachment)]
    ensures var reply := env.backend(trace, AddFileRequest(env, mediaPackage, XmlFile("attachment.xml", attachment), flavor, Attachment));
      && (o.result.Ok? <==> reply.Ok())
      && (o.result.Ok? ==> o.result.value == reply.body)
      && (o.result.Err? ==> o.result.error == AddFailed(Attachment, reply.status, reply.body))
  {
    AddFile(env, trace, mediaPackage, XmlFile("attachment.xml", attachment), flavor, Attachment)
  }

  /** `ingest(...)`: whether the backend accepted the package. */
  function Ingest(env: Environment, trace: seq<Request>, mediaPackage: string, workflowDefinitionId: string, workflowInstanceId: string): (o: Outcome<bool>)
    ensures o.trace == trace + [IngestRequest(env, mediaPackage, workflowDefinitionId, workflowInstanceId)]
    ensures o.result == Ok(env.backend(trace, IngestRequest(env, mediaPackage, workflowDefinitionId, workflowInstanceId)).Ok())
  {
    var request := IngestRequest(env, mediaPackage, workflowDefinitionId, workflowInstanceId);
    Outcome(trace + [request], Ok(env.backend(trace, request).Ok()))
  }

  /** `getAccessListTemplates()`. */
  function AccessListTemplates(env: Environment, trace: seq<Request>): (o: Outcome<seq<AclTemplate>>)
    ensures o.trace == trace + [TemplatesRequest(env)]
    ensures var reply := env.backend(trace, TemplatesRequest(env));
      && (!reply.Ok() ==> o.result == Err(AclListFailed(reply.status)))
      && (reply.Ok() && env.decodeTemplates(reply.body).None? ==> o.result == Err(MalformedJson(reply.body)))
      && (reply.Ok() && env.decodeTemplates(reply.body).Some? ==> o.result == Ok(env.decodeTemplates(reply.body).value))
  {
    var request := TemplatesRequest(env);
    var reply := env.backend(trace, request);
    if !reply.Ok() then Outcome(trace + [request], Err(AclListFailed(reply.status)))
    else match env.decodeTemplates(reply.body)
      case None => Outcome(trace + [request], Err(MalformedJson(reply.body)))
      case Some(templates) => Outcome(trace + [request], Ok(templates))
  }

  /** Two template names match when they agree after lower-casing. */
  predicate NamesMatch(a: string, b: string) {
    Lower(a) == Lower(b)
  }

  /** Template `i` is the first whose name matches `name`. */
  predicate FirstTemplateNamed(templates: seq<AclTemplate>, name: string, i: int) {
    0 <= i < |templates| && NamesMatch(templates[i].name, name)
    && forall j :: 0 <= j < i ==> !NamesMatch(templates[j].name, name)
  }

  /** The search of `getAccessListTemplate`: the first template whose name
      equals `name` once both are lower-cased. */
  function FindTemplate(templates: seq<AclTemplate>, name: string): (r: Option<AclTemplate>)
    ensures r.None? <==> forall i :: 0 <= i < |templates| ==> !NamesMatch(templates[i].name, name)
    ensures r.Some? ==> exists i :: FirstTemplateNamed(templates, name, i) && templates[i] == r.value
  {
    if |templates| == 0 then None
    else if NamesMatch(templates[0].name, name) then
      assert FirstTemplateNamed(templates, name, 0);
      Some(templates[0])
    else
      var r := FindTemplate(templates[1..], name);
      if r.Some? then
        var i :| FirstTemplateNamed(templates[1..], name, i) && templates[1..][i] == r.value;
        assert FirstTemplateNamed(templates, name, i + 1);
        r
      else r
  }

  /** The search ignores the case of the name asked for. */
  lemma FindTemplateIgnoresCase(templates: seq<AclTemplate>, a: string, b: string)
    requires Lower(a) == Lower(b)
    ensures FindTemplate(templates, a) == FindTemplate(templates, b)
  {
    assert forall x :: NamesMatch(x, a) <==> NamesMatch(x, b);
    if FindTemplate(templates, a).Some? {
      var i :| FirstTemplateNamed(templates, a, i) && templates[i] == FindTemplate(templates, a).value;
      assert FirstTemplateNamed(templates, b, i);
      assert FindTemplate(templates, b).Some?;
      var k :| FirstTemplateNamed(templates, b, k) && templates[k] == FindTemplate(templates, b).value;
      assert i == k;
    }
  }

  /** `getAccessListTemplate(name)`. */
  function AccessListTemplate(env: Environment, trace: seq<Request>, name: string): (o: Outcome<Option<AclTemplate>>)
    ensures o.trace == trace + [TemplatesRequest(env)]
    ensures var reply := env.backend(trace, TemplatesRequest(env));
      && (!reply.Ok() ==> o.result == Err(AclListFailed(reply.status)))
      && (reply.Ok() && env.decodeTemplates(reply.body).None? ==> o.result == Err(MalformedJson(reply.body)))
      && (reply.Ok() && env.decodeTemplates(reply.body).Some? ==>
            o.result == Ok(FindTemplate(env.decodeTemplates(reply.body).value, name)))
  {
    var all := AccessListTemplates(env, trace);
    match all.result
    case Err(e) => Outcome(all.trace, Err(e))
    case Ok(templates) => Outcome(all.trace, Ok(FindTemplate(templates, name)))
  }

  /** The grants to publish: a custom list wins over a named template;
      with neither the call fails without sending anything. A name that
      matches no template is a failure, as the source's property access
      on the missing template throws. */
  function SelectGrants(env: Environment, trace: seq<Request>, d: EventData): (o: Outcome<seq<Grant>>)
    ensures HasCustomAcl(d) ==> o == Outcome(trace, Ok(d.customAcl.value))
    ensures !HasCustomAcl(d) && !HasAclName(d) ==> o == Outcome(trace, Err(NoAclConfigured))
    ensures !HasCustomAcl(d) && HasAclName(d) ==> o.trace == trace + [TemplatesRequest(env)]
    ensures !HasCustomAcl(d) && HasAclName(d) ==>
      var reply := env.backend(trace, TemplatesRequest(env));
      var templates := env.decodeTemplates(reply.body);
      && (!reply.Ok() ==> o.result == Err(AclListFailed(reply.status)))
      && (reply.Ok() && templates.None? ==> o.result == Err(MalformedJson(reply.body)))
      && (reply.Ok() && templates.Some? && FindTemplate(templates.value, d.aclName.value).None? ==>
            o.result == Err(TemplateNotFound(d.aclName.value)))
      && (reply.Ok() && templates.Some? && FindTemplate(templates.value, d.aclName.value).Some? ==>
            o.result == Ok(FindTemplate(templates.value, d.aclName.value).value.ace))
  {
    if HasCustomAcl(d) then Outcome(trace, Ok(d.customAcl.value))
    else if HasAclName(d) then
      var found := AccessListTemplate(env, trace, d.aclName.value);
      match found.result
      case Err(e) => Outcome(found.trace, Err(e))
      case Ok(None) => Outcome(found.trace, Err(TemplateNotFound(d.aclName.value)))
      case Ok(Some(template)) => Outcome(found.trace, Ok(template.ace))
    else Outcome(trace, Err(NoAclConfigured))
  }

  /** A grant list chosen by template name is the list of the first
      template, in listed order, whose name matches; the index of that
      template is returned. */
  lemma SelectedTemplate(env: Environment, trace: seq<Request>, d: EventData) returns (i: int)
    requires !HasCustomAcl(d) && HasAclName(d) && SelectGrants(env, trace, d).result.Ok?
    ensures var reply := env.backend(trace, TemplatesRequest(env));
      && reply.Ok()
      && env.decodeTemplates(reply.body).Some?
      && FirstTemplateNamed(env.decodeTemplates(reply.body).value, d.aclName.value, i)
      && SelectGrants(env, trace, d).result.value == env.decodeTemplates(reply.body).value[i].ace
  {
    var templates := env.decodeTemplates(env.backend(trace, TemplatesRequest(env)).body).value;
    var found := FindTemplate(templates, d.aclName.value).value;
    i :| FirstTemplateNamed(templates, d.aclName.value, i) && templates[i] == found;
  }

  /** `getSeries(title)`: the first series the backend lists under the
      title, or none. `decode` decodes the JSON reply. */
  function GetSeries<S>(env: Environment, trace: seq<Request>, title: string, decode: string -> Option<seq<S>>): (o: Outcome<Option<S>>)
    ensures o.trace == trace + [SeriesRequest(env, title)]
    ensures var reply := env.backend(trace, SeriesRequest(env, title));
      && (!reply.Ok() ==> o.result == Err(SeriesLookupFailed(title, reply.status)))
      && (o.result.Ok? ==> reply.Ok() && decode(reply.body).Some?)
      && (reply.Ok() && decode(reply.body).None? ==> o.result == Err(MalformedJson(reply.body)))
      && (o.result.Ok? && o.result.value.None? ==> decode(reply.body).value == [])
      && (o.result.Ok? && o.result.value.Some? ==>
            |decode(reply.body).value| > 0 && o.result.value.value == decode(reply.body).value[0])
      && (reply.Ok() && decode(reply.body).Some? ==> o.result.Ok?)
  {
    var request := SeriesRequest(env, title);
    var reply := env.backend(trace, request);
    if !reply.Ok() then Outcome(trace + [request], Err(SeriesLookupFailed(title, reply.status)))
    else match decode(reply.body)
      case None => Outcome(trace + [request], Err(MalformedJson(reply.body)))
      case Some(series) => Outcome(trace + [request], Ok(if |series| > 0 then Some(series[0]) else None))
  }

  /** `createEvent(data)`: one multipart POST of the access list, the
      metadata table, the processing settings and the recording. The
      access list is settled before the file is opened or anything is
      posted. */
  function CreateEvent(env: Environment, trace: seq<Request>, d: EventData): (o: Outcome<string>)
    ensures !HasCustomAcl(d) && !HasAclName(d) ==> o == Outcome(trace, Err(NoAclConfigured))
    ensures HasCustomAcl(d) && env.readable(d.filePath) ==>
      o.trace == trace + [EventRequest(env, d.customAcl.value, d)]
    ensures o.result.Ok? ==> exists grants ::
      && o.trace == SelectGrants(env, trace, d).trace + [EventRequest(env, grants, d)]
      && SelectGrants(env, trace, d).result == Ok(grants)
      && env.backend(SelectGrants(env, trace, d).trace, EventRequest(env, grants, d)).Ok()
    ensures var selected := SelectGrants(env, trace, d);
      selected.result.Err? ==> o == Outcome(selected.trace, Err(selected.result.error))
    ensures var selected := SelectGrants(env, trace, d);
      selected.result.Ok? && !env.readable(d.filePath) ==> o == Outcome(selected.trace, Err(FileUnreadable(d.filePath)))
    ensures var selected := SelectGrants(env, trace, d);
      selected.result.Ok? && env.readable(d.filePath) ==>
        var request := EventRequest(env, selected.result.value, d);
        var reply := env.backend(selected.trace, request);
        && o.trace == selected.trace + [request]
        && (!reply.Ok() ==> o.result == Err(EventCreateFailed(reply.status, reply.body)))
        && (reply.Ok() && env.decodeIdentifier(reply.body).None? ==> o.result == Err(MalformedJson(reply.body)))
        && (reply.Ok() && env.decodeIdentifier(reply.body).Some? ==> o.result == Ok(env.decodeIdentifier(reply.body).value))
  {
    var selected := SelectGrants(env, trace, d);
    match selected.result
    case Err(e) => Outcome(selected.trace, Err(e))
    case Ok(grants) =>
      if !env.readable(d.filePath) then Outcome(selected.trace, Err(FileUnreadable(d.filePath)))
      else
        var request := EventRequest(env, grants, d);
        var reply := env.backend(selected.trace, request);
        if !reply.Ok() then Outcome(selected.trace + [request], Err(EventCreateFailed(reply.status, reply.body)))
        else match env.decodeIdentifier(reply.body)
          case None => Outcome(selected.trace + [request], Err(MalformedJson(reply.body)))
          case Some(id) => Outcome(selected.trace + [request], Ok(id))
  }

  // ---------------------------------------------------------------------
  // The media-package protocol

  /** Where a run of `createEventMultiRequest` stands. */
  datatype Phase =
    | Start
    | PackageCreated
    | CatalogAttached
    | TrackAttached
    | AclAttached
    | Ingested
    | Aborted(failure: Failure)
  {
    predicate Terminal() {
      Ingested? || Aborted?
    }

    /** The number of steps left on the way to `Ingested`. */
    function Remaining(): nat {
      match this
      case Start => 5
      case PackageCreated => 4
      case CatalogAttached => 3
      case TrackAttached => 2
      case AclAttached => 1
      case Ingested => 0
      case Aborted(_) => 0
    }
  }

  /** The state threaded through the protocol: the latest manifest, the
      package identifier once read, and the requests sent. */
  datatype Session = Session(phase: Phase, manifest: string, packageId: string, trace: seq<Request>)

  const Initial := Session(Start, "", "", [])

  /** Moves to `next` with the manifest a call returned, or aborts with
      its failure keeping the last manifest. */
  function Advance(s: Session, o: Outcome<string>, next: Phase): (r: Session)
    ensures r.phase == next || r.phase.Aborted?
    ensures r.trace == o.trace
  {
    match o.result
    case Ok(manifest) => Session(next, manifest, s.packageId, o.trace)
    case Err(e) => Session(Aborted(e), s.manifest, s.packageId, o.trace)
  }

  /** The fourth step: read the package identifier from the manifest,
      choose the grants, and attach the policy built from both. */
  function AttachAcl(env: Environment, d: EventData, s: Session): (r: Session)
    ensures r.phase == AclAttached || r.phase.Aborted?
    ensures Extends(r.trace, s.trace)
  {
    match MediaPackageId(env.parseXml, s.manifest)
    case None => Session(Aborted(MalformedXml(s.manifest)), s.manifest, s.packageId, s.trace)
    case Some(id) =>
      var selected := SelectGrants(env, s.trace, d);
      match selected.result
      case Err(e) => Session(Aborted(e), s.manifest, id, selected.trace)
      case Ok(grants) =>
        Advance(s.(packageId := id),
          AddAttachment(env, selected.trace, s.manifest, PolicyOf(grants, id), AclFlavor),
          AclAttached)
  }

  /** One step of the protocol. */
  function Step(env: Environment, d: EventData, s: Session): (next: Session)
    requires !s.phase.Terminal()
    ensures next.phase.Remaining() < s.phase.Remaining()
    ensures next.phase.Aborted? || next.phase.Remaining() == s.phase.Remaining() - 1
    ensures Extends(next.trace, s.trace)
  {
    match s.phase
    case Start =>
      Advance(s, CreateMediaPackage(env, s.trace), PackageCreated)
    case PackageCreated =>
      Advance(s, AddDCCatalog(env, s.trace, s.manifest, EpisodeCatalogOf(d), CatalogFlavor), CatalogAttached)
    case CatalogAttached =>
      Advance(s, AddTrack(env, s.trace, s.manifest, d.filePath, TrackFlavor), TrackAttached)
    case TrackAttached =>
      AttachAcl(env, d, s)
    case AclAttached =>
      var o := Ingest(env, s.trace, s.manifest, IngestWorkflow, "");
      Session(Ingested, s.manifest, s.packageId, o.trace)
  }

  /** Steps until the run is ingested or aborted. */
  function Run(env: Environment, d: EventData, s: Session): (last: Session)
    ensures last.phase.Terminal()
    ensures Extends(last.trace, s.trace)
    decreases s.phase.Remaining()
  {
    if s.phase.Terminal() then s else Run(env, d, Step(env, d, s))
  }

  /** The first step sends the create request, and later steps only
      append. */
  lemma RunStartsWithCreate(env: Environment, d: EventData)
    ensures |Run(env, d, Initial).trace| >= 1 && Run(env, d, Initial).trace[0] == CreateRequest(env)
  {
    var first := Step(env, d, Initial);
    assert Run(env, d, Initial) == Run(env, d, first);
    assert Run(env, d, Initial).trace[..1] == first.trace == [CreateRequest(env)];
  }

  /** `createEventMultiRequest(data)`: the package identifier of an
      ingested run, or the failure that aborted it. */
  function CreateEventMultiRequest(env: Environment, d: EventData): (o: Outcome<string>)
    ensures |o.trace| >= 1 && o.trace[0] == CreateRequest(env)
  {
    RunStartsWithCreate(env, d);
    var last := Run(env, d, Initial);
    Outcome(last.trace, if last.phase.Ingested? then Ok(last.packageId) else Err(last.phase.failure))
  }
}
