/** Properties of a whole `createEventMultiRequest` run and of
    `createEvent`, stated over the sequence of requests the client sends
    and the replies the backend gives to them. */
module IngestProtocol {
  import opened Wrappers
  import opened Records
  import opened Http
  import opened MediaPackage
  import opened Opencast
  import EpisodeCatalog
  import AclPolicy

  /** The backend's reply to request `i` of `trace`, given the ones before. */
  function Reply(env: Environment, trace: seq<Request>, i: int): Response
    requires 0 <= i < |trace|
  {
    env.backend(trace[..i], trace[i])
  }

  predicate AllOk(env: Environment, trace: seq<Request>) {
    forall i :: 0 <= i < |trace| ==> Reply(env, trace, i).Ok()
  }

  predicate AllButLastOk(env: Environment, trace: seq<Request>) {
    forall i :: 0 <= i < |trace| - 1 ==> Reply(env, trace, i).Ok()
  }

  /** Sending one more request leaves the replies to earlier ones as
      they were. */
  lemma {:induction false} AppendKeepsReplies(env: Environment, trace: seq<Request>, request: Request)
    ensures forall i :: 0 <= i < |trace| ==> Reply(env, trace + [request], i) == Reply(env, trace, i)
    ensures Reply(env, trace + [request], |trace|) == env.backend(trace, request)
  {
    forall i | 0 <= i <= |trace|
      ensures (trace + [request])[..i] == trace[..i]
    {
    }
    assert (trace + [request])[..|trace|] == trace;
  }

  /** A trace that starts with another keeps the replies to its requests. */
  lemma PrefixKeepsReplies(env: Environment, longer: seq<Request>, shorter: seq<Request>)
    requires |shorter| <= |longer| && longer[..|shorter|] == shorter
    ensures forall i :: 0 <= i < |shorter| ==> Reply(env, longer, i) == Reply(env, shorter, i)
  {
    forall i | 0 <= i < |shorter|
      ensures longer[..i] == shorter[..i]
    {
      assert longer[..i] == longer[..|shorter|][..i];
    }
  }

  lemma AppendSound(env: Environment, trace: seq<Request>, request: Request)
    requires AllOk(env, trace)
    ensures AllButLastOk(env, trace + [request])
    ensures env.backend(trace, request).Ok() ==> AllOk(env, trace + [request])
  {
    AppendKeepsReplies(env, trace, request);
  }

  /** While a run goes on every request so far was answered with success;
      once it stops at most the last one was not. */
  predicate Sound(env: Environment, s: Session) {
    if s.phase.Terminal() then AllButLastOk(env, s.trace) else AllOk(env, s.trace)
  }

  lemma AttachAclSound(env: Environment, d: EventData, s: Session)
    requires s.phase == TrackAttached && AllOk(env, s.trace)
    ensures Sound(env, AttachAcl(env, d, s))
  {
    match MediaPackageId(env.parseXml, s.manifest)
    case None =>
    case Some(id) =>
      var selected := SelectGrants(env, s.trace, d);
      if !HasCustomAcl(d) && HasAclName(d) {
        AppendSound(env, s.trace, TemplatesRequest(env));
      }
      if selected.result.Ok? {
        assert AllOk(env, selected.trace);
        AppendSound(env, selected.trace, AddFileRequest(env, s.manifest, XmlFile("attachment.xml", PolicyOf(selected.result.value, id)), AclFlavor, Attachment));
      }
  }

  lemma StepSound(env: Environment, d: EventData, s: Session)
    requires !s.phase.Terminal() && AllOk(env, s.trace)
    ensures Sound(env, Step(env, d, s))
  {
    match s.phase
    case Start =>
      AppendSound(env, s.trace, CreateRequest(env));
    case PackageCreated =>
      AppendSound(env, s.trace, AddFileRequest(env, s.manifest, XmlFile("dublincore-episode.xml", EpisodeCatalogOf(d)), CatalogFlavor, Catalog));
    case CatalogAttached =>
      AppendSound(env, s.trace, AddFileRequest(env, s.manifest, Upload(d.filePath), TrackFlavor, Track));
    case TrackAttached =>
      AttachAclSound(env, d, s);
    case AclAttached =>
      AppendSound(env, s.trace, IngestRequest(env, s.manifest, IngestWorkflow, ""));
  }

  lemma {:induction false} RunSound(env: Environment, d: EventData, s: Session)
    requires Sound(env, s)
    ensures Sound(env, Run(env, d, s))
    decreases s.phase.Remaining()
  {
    if !s.phase.Terminal() {
      StepSound(env, d, s);
      RunSound(env, d, Step(env, d, s));
    }
  }

  /** The run stops at the first request the backend refuses: every
      request but the last was answered with a 2xx status. */
  lemma EarlierRepliesOk(env: Environment, d: EventData)
    ensures var t := CreateEventMultiRequest(env, d).trace;
      forall i :: 0 <= i < |t| - 1 ==> Reply(env, t, i).Ok()
  {
    RunSound(env, d, Initial);
  }

  // ---------------------------------------------------------------------
  // The reply to the ingest request does not matter

  /** Two environments that differ at most in how the backend answers
      requests to the ingest endpoint. */
  ghost predicate AgreeBesideIngest(a: Environment, b: Environment) {
    && a == b.(backend := a.backend)
    && forall t: seq<Request>, r: Request :: r.url != a.config.host + "/ingest/ingest" ==> a.backend(t, r) == b.backend(t, r)
  }

  lemma AddFileIgnoresIngestReply(a: Environment, b: Environment, t: seq<Request>, mediaPackage: string, file: Part, flavor: string, kind: AttachmentKind)
    requires AgreeBesideIngest(a, b)
    ensures AddFile(a, t, mediaPackage, file, flavor, kind) == AddFile(b, t, mediaPackage, file, flavor, kind)
  {
    assert |AddFileRequest(a, mediaPackage, file, flavor, kind).url| != |a.config.host + "/ingest/ingest"|;
  }

  lemma SelectGrantsIgnoresIngestReply(a: Environment, b: Environment, t: seq<Request>, d: EventData)
    requires AgreeBesideIngest(a, b)
    ensures SelectGrants(a, t, d) == SelectGrants(b, t, d)
  {
    assert |TemplatesRequest(a).url| != |a.config.host + "/ingest/ingest"|;
    assert AccessListTemplates(a, t) == AccessListTemplates(b, t);
  }

  lemma AttachAclIgnoresIngestReply(a: Environment, b: Environment, d: EventData, s: Session)
    requires AgreeBesideIngest(a, b)
    ensures AttachAcl(a, d, s) == AttachAcl(b, d, s)
  {
    SelectGrantsIgnoresIngestReply(a, b, s.trace, d);
    var selected := SelectGrants(a, s.trace, d);
    match MediaPackageId(a.parseXml, s.manifest)
    case None =>
    case Some(id) =>
      if selected.result.Ok? {
        AddFileIgnoresIngestReply(a, b, selected.trace, s.manifest,
          XmlFile("attachment.xml", PolicyOf(selected.result.value, id)), AclFlavor, Attachment);
      }
  }

  lemma StepIgnoresIngestReply(a: Environment, b: Environment, d: EventData, s: Session)
    requires AgreeBesideIngest(a, b) && !s.phase.Terminal()
    ensures Step(a, d, s) == Step(b, d, s)
  {
    match s.phase
    case Start =>
      assert |CreateRequest(a).url| != |a.config.host + "/ingest/ingest"|;
    case PackageCreated =>
      AddFileIgnoresIngestReply(a, b, s.trace, s.manifest, XmlFile("dublincore-episode.xml", EpisodeCatalogOf(d)), CatalogFlavor, Catalog);
    case CatalogAttached =>
      AddFileIgnoresIngestReply(a, b, s.trace, s.manifest, Upload(d.filePath), TrackFlavor, Track);
    case TrackAttached =>
      AttachAclIgnoresIngestReply(a, b, d, s);
    case AclAttached =>
  }

  lemma {:induction false} RunIgnoresIngestReply(a: Environment, b: Environment, d: EventData, s: Session)
    requires AgreeBesideIngest(a, b)
    ensures Run(a, d, s) == Run(b, d, s)
    decreases s.phase.Remaining()
  {
    if !s.phase.Terminal() {
      StepIgnoresIngestReply(a, b, d, s);
      RunIgnoresIngestReply(a, b, d, Step(a, d, s));
    }
  }

  /** `createEventMultiRequest` discards what `ingest` reports: whatever
      the backend answers to the ingest request, the run sends the same
      requests and returns the same identifier or failure. */
  lemma IngestReplyIgnored(a: Environment, b: Environment, d: EventData)
    requires AgreeBesideIngest(a, b)
    ensures CreateEventMultiRequest(a, d) == CreateEventMultiRequest(b, d)
  {
    RunIgnoresIngestReply(a, b, d, Initial);
  }

  // ---------------------------------------------------------------------
  // What a failure reports

  /** `failure` is what the last of `trace` (or the event data) shows:
      a refused request carries that reply's status and body, a bad
      document is the reply that failed to decode, and the configuration
      and file failures hold of the event data. */
  predicate Explains(env: Environment, d: EventData, trace: seq<Request>, failure: Failure) {
    match failure
    case CreateFailed(status, body) =>
      |trace| > 0 && trace[|trace| - 1] == CreateRequest(env)
      && Reply(env, trace, |trace| - 1) == Response(status, body) && !Reply(env, trace, |trace| - 1).Ok()
    case AddFailed(kind, status, body) =>
      |trace| > 0 && trace[|trace| - 1].url == env.config.host + Endpoint(kind)
      && Reply(env, trace, |trace| - 1) == Response(status, body) && !Reply(env, trace, |trace| - 1).Ok()
    case AclListFailed(status) =>
      |trace| > 0 && trace[|trace| - 1] == TemplatesRequest(env)
      && Reply(env, trace, |trace| - 1).status == status && !Reply(env, trace, |trace| - 1).Ok()
    case MalformedJson(body) =>
      |trace| > 0 && trace[|trace| - 1] == TemplatesRequest(env)
      && Reply(env, trace, |trace| - 1).body == body && env.decodeTemplates(body).None?
    case TemplateNotFound(name) =>
      |trace| > 0 && trace[|trace| - 1] == TemplatesRequest(env) && d.aclName == Some(name)
      && var templates := env.decodeTemplates(Reply(env, trace, |trace| - 1).body);
         templates.Some? && forall i :: 0 <= i < |templates.value| ==> !NamesMatch(templates.value[i].name, name)
    case MalformedXml(document) =>
      |trace| > 0 && Reply(env, trace, |trace| - 1).body == document && env.parseXml(document).None?
    case FileUnreadable(path) =>
      path == d.filePath && !env.readable(path)
    case NoAclConfigured =>
      !HasCustomAcl(d) && !HasAclName(d)
    case SeriesLookupFailed(_, _) => false
    case EventCreateFailed(_, _) => false
  }

  /** A session that carries the manifest the backend last returned. */
  predicate ManifestIsLastReply(env: Environment, s: Session) {
    |s.trace| > 0 && Reply(env, s.trace, |s.trace| - 1).body == s.manifest
  }

  /** An aborted session's failure is explained by its trace, and a
      session past creation holds the body of its last reply. */
  predicate Accountable(env: Environment, d: EventData, s: Session) {
    && (s.phase.Aborted? ==> Explains(env, d, s.trace, s.phase.failure))
    && (s.phase in {PackageCreated, CatalogAttached, TrackAttached} ==> ManifestIsLastReply(env, s))
  }

  lemma AddFileAccountable(env: Environment, d: EventData, s: Session, file: Part, flavor: string, kind: AttachmentKind, next: Phase)
    requires next in {CatalogAttached, TrackAttached, AclAttached}
    ensures Accountable(env, d, Advance(s, AddFile(env, s.trace, s.manifest, file, flavor, kind), next))
  {
    AppendKeepsReplies(env, s.trace, AddFileRequest(env, s.manifest, file, flavor, kind));
  }

  lemma SelectGrantsExplains(env: Environment, d: EventData, trace: seq<Request>)
    ensures var selected := SelectGrants(env, trace, d);
      selected.result.Err? ==> Explains(env, d, selected.trace, selected.result.error)
  {
    if !HasCustomAcl(d) && HasAclName(d) {
      AppendKeepsReplies(env, trace, TemplatesRequest(env));
    }
  }

  lemma AttachAclAccountable(env: Environment, d: EventData, s: Session)
    requires s.phase == TrackAttached && ManifestIsLastReply(env, s)
    ensures Accountable(env, d, AttachAcl(env, d, s))
  {
    match MediaPackageId(env.parseXml, s.manifest)
    case None =>
    case Some(id) =>
      var selected := SelectGrants(env, s.trace, d);
      match selected.result
      case Err(e) =>
        SelectGrantsExplains(env, d, s.trace);
      case Ok(grants) =>
        var attachment := XmlFile("attachment.xml", PolicyOf(grants, id));
        AppendKeepsReplies(env, selected.trace, AddFileRequest(env, s.manifest, attachment, AclFlavor, Attachment));
  }

  lemma StepAccountable(env: Environment, d: EventData, s: Session)
    requires !s.phase.Terminal() && Accountable(env, d, s)
    ensures Accountable(env, d, Step(env, d, s))
  {
    match s.phase
    case Start =>
      AppendKeepsReplies(env, s.trace, CreateRequest(env));
    case PackageCreated =>
      AddFileAccountable(env, d, s, XmlFile("dublincore-episode.xml", EpisodeCatalogOf(d)), CatalogFlavor, Catalog, CatalogAttached);
    case CatalogAttached =>
      if env.readable(d.filePath) {
        AddFileAccountable(env, d, s, Upload(d.filePath), TrackFlavor, Track, TrackAttached);
      }
    case TrackAttached =>
      AttachAclAccountable(env, d, s);
    case AclAttached =>
  }

  lemma {:induction false} RunAccountable(env: Environment, d: EventData, s: Session)
    requires Accountable(env, d, s)
    ensures Accountable(env, d, Run(env, d, s))
    decreases s.phase.Remaining()
  {
    if !s.phase.Terminal() {
      StepAccountable(env, d, s);
      RunAccountable(env, d, Step(env, d, s));
    }
  }

  /** A failed run reports the cause it stopped at: a refused request's
      status and body, the document that did not decode, the missing
      template, the unreadable recording, or the missing ACL choice. */
  lemma FailureExplained(env: Environment, d: EventData)
    ensures var o := CreateEventMultiRequest(env, d);
      o.result.Err? ==> Explains(env, d, o.trace, o.result.error)
  {
    RunAccountable(env, d, Initial);
  }

  // ---------------------------------------------------------------------
  // A run that reaches ingest

  /** The first three requests of a run that gets past the recording: a
      created package, the episode catalog and the recording, each
      carrying the manifest the previous one returned, all answered with
      success. */
  predicate TrackPrefix(env: Environment, d: EventData, t: seq<Request>) {
    && |t| >= 3
    && t[0] == CreateRequest(env)
    && t[1] == AddFileRequest(env, Reply(env, t, 0).body, XmlFile("dublincore-episode.xml", EpisodeCatalogOf(d)), CatalogFlavor, Catalog)
    && t[2] == AddFileRequest(env, Reply(env, t, 1).body, Upload(d.filePath), TrackFlavor, Track)
    && forall i :: 0 <= i < 3 ==> Reply(env, t, i).Ok()
  }

  /** Later requests do not disturb the first three. */
  lemma TrackPrefixKept(env: Environment, d: EventData, longer: seq<Request>, shorter: seq<Request>)
    requires Extends(longer, shorter) && TrackPrefix(env, d, shorter)
    ensures TrackPrefix(env, d, longer)
    ensures Reply(env, longer, 2) == Reply(env, shorter, 2)
  {
    PrefixKeepsReplies(env, longer, shorter);
    assert longer[..3] == shorter[..3] by {
      assert longer[..3] == longer[..|shorter|][..3];
    }
    assert forall i :: 0 <= i < 3 ==> longer[i] == longer[..3][i];
  }

  /** The first two steps of a run that ends ingested. */
  lemma ThroughCatalog(env: Environment, d: EventData) returns (s2: Session)
    requires CreateEventMultiRequest(env, d).result.Ok?
    ensures s2.phase == CatalogAttached && Run(env, d, s2) == Run(env, d, Initial)
    ensures var t := s2.trace;
      && |t| == 2
      && t[0] == CreateRequest(env)
      && t[1] == AddFileRequest(env, Reply(env, t, 0).body, XmlFile("dublincore-episode.xml", EpisodeCatalogOf(d)), CatalogFlavor, Catalog)
      && Reply(env, t, 0).Ok() && Reply(env, t, 1).Ok()
      && s2.manifest == Reply(env, t, 1).body
  {
    var s1 := Step(env, d, Initial);
    assert Run(env, d, Initial) == Run(env, d, s1);
    EarlyStepTaken(env, d, Initial);
    s2 := Step(env, d, s1);
    assert Run(env, d, s1) == Run(env, d, s2);
    EarlyStepTaken(env, d, s1);
    AppendKeepsReplies(env, s1.trace, s2.trace[1]);
  }

  /** The first three steps of a run that ends ingested. */
  lemma ThroughTrack(env: Environment, d: EventData) returns (s3: Session)
    requires CreateEventMultiRequest(env, d).result.Ok?
    ensures s3.phase == TrackAttached && Run(env, d, s3) == Run(env, d, Initial)
    ensures |s3.trace| == 3 && TrackPrefix(env, d, s3.trace)
    ensures s3.manifest == Reply(env, s3.trace, 2).body
  {
    var s2 := ThroughCatalog(env, d);
    s3 := Step(env, d, s2);
    assert Run(env, d, s2) == Run(env, d, s3);
    EarlyStepTaken(env, d, s2);
    AppendKeepsReplies(env, s2.trace, s3.trace[2]);
  }

  /** The fourth step with a custom access list, when the policy is
      attached: one upload of the policy built from the list and the
      identifier read from the track's manifest. */
  lemma CustomAclStep(env: Environment, d: EventData, s: Session)
    requires s.phase == TrackAttached && HasCustomAcl(d)
    requires Step(env, d, s).phase == AclAttached
    ensures var next := Step(env, d, s);
      var n := |s.trace|;
      && next.trace == s.trace + [AddFileRequest(env, s.manifest,
           XmlFile("attachment.xml", PolicyOf(d.customAcl.value, next.packageId)), AclFlavor, Attachment)]
      && MediaPackageId(env.parseXml, s.manifest) == Some(next.packageId)
      && Reply(env, next.trace, n).Ok()
      && Reply(env, next.trace, n).body == next.manifest
  {
    var id := MediaPackageId(env.parseXml, s.manifest).value;
    AppendKeepsReplies(env, s.trace,
      AddFileRequest(env, s.manifest, XmlFile("attachment.xml", PolicyOf(d.customAcl.value, id)), AclFlavor, Attachment));
  }

  /** The fourth step when the access list comes from a named template
      and the policy is attached. */
  lemma TemplateAclStep(env: Environment, d: EventData, s: Session) returns (k: int)
    requires s.phase == TrackAttached && !HasCustomAcl(d)
    requires Step(env, d, s).phase == AclAttached
    ensures HasAclName(d)
    ensures var next := Step(env, d, s);
      var n := |s.trace|;
      && |next.trace| == n + 2
      && next.trace[..n] == s.trace
      && next.trace[n] == TemplatesRequest(env)
      && Reply(env, next.trace, n).Ok()
      && MediaPackageId(env.parseXml, s.manifest) == Some(next.packageId)
      && var templates := env.decodeTemplates(Reply(env, next.trace, n).body);
      && templates.Some?
      && FirstTemplateNamed(templates.value, d.aclName.value, k)
      && next.trace[n + 1] == AddFileRequest(env, s.manifest,
           XmlFile("attachment.xml", PolicyOf(templates.value[k].ace, next.packageId)), AclFlavor, Attachment)
      && Reply(env, next.trace, n + 1).Ok()
      && Reply(env, next.trace, n + 1).body == next.manifest
  {
    var id := MediaPackageId(env.parseXml, s.manifest).value;
    var selected := SelectGrants(env, s.trace, d);
    var r3 := TemplatesRequest(env);
    AppendKeepsReplies(env, s.trace, r3);
    var r4 := AddFileRequest(env, s.manifest, XmlFile("attachment.xml", PolicyOf(selected.result.value, id)), AclFlavor, Attachment);
    AppendKeepsReplies(env, selected.trace, r4);
    var next := Step(env, d, s);
    assert next.trace == s.trace + [r3, r4];
    assert (s.trace + [r3, r4])[..|s.trace| + 1] == s.trace + [r3];
    k := SelectedTemplate(env, s.trace, d);
  }

  /** The last step: the ingest request goes out with the manifest the
      policy upload returned, and the run ends ingested. */
  lemma IngestStep(env: Environment, d: EventData, s: Session)
    requires s.phase == AclAttached
    ensures var last := Run(env, d, s);
      && last.phase == Ingested
      && last.packageId == s.packageId
      && last.trace == s.trace + [IngestRequest(env, s.manifest, IngestWorkflow, "")]
      && forall i :: 0 <= i < |s.trace| ==> Reply(env, last.trace, i) == Reply(env, s.trace, i)
  {
    assert Run(env, d, s) == Step(env, d, s);
    AppendKeepsReplies(env, s.trace, IngestRequest(env, s.manifest, IngestWorkflow, ""));
  }

  /** An ingested run with a custom access list: after the first three
      requests, the policy built from the list and the identifier read
      from the track's manifest is added to that manifest, and the
      manifest this returns is ingested. */
  lemma IngestedWithCustomAcl(env: Environment, d: EventData)
    requires HasCustomAcl(d)
    requires CreateEventMultiRequest(env, d).result.Ok?
    ensures var o := CreateEventMultiRequest(env, d);
      var t := o.trace;
      && |t| == 5
      && TrackPrefix(env, d, t)
      && MediaPackageId(env.parseXml, Reply(env, t, 2).body) == Some(o.result.value)
      && t[3] == AddFileRequest(env, Reply(env, t, 2).body,
           XmlFile("attachment.xml", PolicyOf(d.customAcl.value, o.result.value)), AclFlavor, Attachment)
      && Reply(env, t, 3).Ok()
      && t[4] == IngestRequest(env, Reply(env, t, 3).body, IngestWorkflow, "")
  {
    var s3 := ThroughTrack(env, d);
    var s4 := Step(env, d, s3);
    assert Run(env, d, s3) == Run(env, d, s4);
    CustomAclStep(env, d, s3);
    IngestStep(env, d, s4);
    var t := Run(env, d, s4).trace;
    assert t[..|s4.trace|] == s4.trace;
    assert t[..|s3.trace|] == s3.trace;
    TrackPrefixKept(env, d, t, s3.trace);
  }

  /** An ingested run with a named template: the template list is fetched
      between the track and the policy, the policy holds the entries of
      the first template whose name matches ignoring case, and the policy
      is added to the manifest of the track upload, not to the list. */
  lemma IngestedWithTemplate(env: Environment, d: EventData)
    requires !HasCustomAcl(d)
    requires CreateEventMultiRequest(env, d).result.Ok?
    ensures HasAclName(d)
    ensures var o := CreateEventMultiRequest(env, d);
      var t := o.trace;
      && |t| == 6
      && TrackPrefix(env, d, t)
      && MediaPackageId(env.parseXml, Reply(env, t, 2).body) == Some(o.result.value)
      && t[3] == TemplatesRequest(env)
      && Reply(env, t, 3).Ok()
      && var templates := env.decodeTemplates(Reply(env, t, 3).body);
      && templates.Some?
      && (exists i :: FirstTemplateNamed(templates.value, d.aclName.value, i)
           && t[4] == AddFileRequest(env, Reply(env, t, 2).body,
                XmlFile("attachment.xml", PolicyOf(templates.value[i].ace, o.result.value)), AclFlavor, Attachment))
      && Reply(env, t, 4).Ok()
      && t[5] == IngestRequest(env, Reply(env, t, 4).body, IngestWorkflow, "")
  {
    var s3 := ThroughTrack(env, d);
    var s4 := Step(env, d, s3);
    assert Run(env, d, s3) == Run(env, d, s4);
    var k := TemplateAclStep(env, d, s3);
    IngestStep(env, d, s4);
    var t := Run(env, d, s4).trace;
    assert t[..|s4.trace|] == s4.trace;
    assert t[..|s3.trace|] == s3.trace;
    TrackPrefixKept(env, d, t, s3.trace);
    var templates := env.decodeTemplates(Reply(env, t, 3).body);
    assert FirstTemplateNamed(templates.value, d.aclName.value, k)
      && t[4] == AddFileRequest(env, Reply(env, t, 2).body,
           XmlFile("attachment.xml", PolicyOf(templates.value[k].ace, s4.packageId)), AclFlavor, Attachment);
  }

  // ---------------------------------------------------------------------
  // When a run reaches ingest

  /** A backend that answers every request with success and a body the
      XML parser accepts. */
  ghost predicate Accepting(env: Environment) {
    forall t: seq<Request>, r: Request :: env.backend(t, r).Ok() && env.parseXml(env.backend(t, r).body).Some?
  }

  /** Whatever was sent before, the template list decodes and holds a
      template whose name matches `name` ignoring case. */
  ghost predicate TemplateListed(env: Environment, name: string) {
    forall t: seq<Request> ::
      && env.decodeTemplates(env.backend(t, TemplatesRequest(env)).body).Some?
      && exists i :: 0 <= i < |env.decodeTemplates(env.backend(t, TemplatesRequest(env)).body).value|
           && NamesMatch(env.decodeTemplates(env.backend(t, TemplatesRequest(env)).body).value[i].name, name)
  }

  /** With an accepting backend and a readable recording, the first three
      steps succeed and leave a manifest that parses. */
  lemma ReachTrack(env: Environment, d: EventData) returns (s3: Session)
    requires Accepting(env) && env.readable(d.filePath)
    ensures s3.phase == TrackAttached && Run(env, d, s3) == Run(env, d, Initial)
    ensures env.parseXml(s3.manifest).Some?
  {
    var s1 := Step(env, d, Initial);
    EarlyStep(env, d, Initial);
    assert Reply(env, s1.trace, 0).Ok();
    assert Run(env, d, Initial) == Run(env, d, s1);
    var s2 := Step(env, d, s1);
    EarlyStep(env, d, s1);
    assert Reply(env, s2.trace, 1).Ok();
    assert Run(env, d, s1) == Run(env, d, s2);
    s3 := Step(env, d, s2);
    EarlyStep(env, d, s2);
    assert Reply(env, s3.trace, 2).Ok();
    assert Run(env, d, s2) == Run(env, d, s3);
  }

  /** With an accepting backend, a manifest that parses and an access-list
      choice that resolves, the fourth step attaches the policy. */
  lemma AclStepSucceeds(env: Environment, d: EventData, s: Session)
    requires s.phase == TrackAttached && Accepting(env) && env.parseXml(s.manifest).Some?
    requires HasCustomAcl(d) || (HasAclName(d) && TemplateListed(env, d.aclName.value))
    ensures Step(env, d, s).phase == AclAttached
  {
    var selected := SelectGrants(env, s.trace, d);
    if !HasCustomAcl(d) {
      var templates := env.decodeTemplates(env.backend(s.trace, TemplatesRequest(env)).body).value;
      var i :| 0 <= i < |templates| && NamesMatch(templates[i].name, d.aclName.value);
      assert FindTemplate(templates, d.aclName.value).Some?;
    }
    assert selected.result.Ok?;
  }

  /** The success direction: with an accepting backend, a readable
      recording and either a custom list or a template that is found, the
      run ends ingested after five or six requests and returns the
      identifier read from the track upload's manifest. */
  lemma IngestSucceeds(env: Environment, d: EventData)
    requires Accepting(env) && env.readable(d.filePath)
    requires HasCustomAcl(d) || (HasAclName(d) && TemplateListed(env, d.aclName.value))
    ensures var o := CreateEventMultiRequest(env, d);
      && o.result.Ok?
      && |o.trace| == (if HasCustomAcl(d) then 5 else 6)
      && MediaPackageId(env.parseXml, Reply(env, o.trace, 2).body) == Some(o.result.value)
  {
    var s3 := ReachTrack(env, d);
    AclStepSucceeds(env, d, s3);
    var s4 := Step(env, d, s3);
    assert Run(env, d, s3) == Run(env, d, s4);
    IngestStep(env, d, s4);
    if HasCustomAcl(d) {
      IngestedWithCustomAcl(env, d);
    } else {
      IngestedWithTemplate(env, d);
    }
  }

  // ---------------------------------------------------------------------
  // Neither a custom list nor a template name

  /** The request each of the first three steps sends, if any. */
  function EarlyRequest(env: Environment, d: EventData, s: Session): Request {
    match s.phase
    case Start => CreateRequest(env)
    case PackageCreated =>
      AddFileRequest(env, s.manifest, XmlFile("dublincore-episode.xml", EpisodeCatalogOf(d)), CatalogFlavor, Catalog)
    case _ => AddFileRequest(env, s.manifest, Upload(d.filePath), TrackFlavor, Track)
  }

  /** Each of the first three steps sends at most one request and goes
      on exactly when that request was sent and answered with success,
      taking the reply's body as the manifest. */
  lemma EarlyStep(env: Environment, d: EventData, s: Session)
    requires s.phase.Start? || s.phase.PackageCreated? || s.phase.CatalogAttached?
    ensures var next := Step(env, d, s);
      var n := |s.trace|;
      && |next.trace| <= n + 1
      && ((!s.phase.CatalogAttached? || env.readable(d.filePath)) <==> |next.trace| == n + 1)
      && (|next.trace| == n + 1 ==> next.trace == s.trace + [EarlyRequest(env, d, s)])
      && (!next.phase.Aborted? <==> |next.trace| == n + 1 && Reply(env, next.trace, n).Ok())
      && (!next.phase.Aborted? ==> next.manifest == Reply(env, next.trace, n).body)
  {
    match s.phase
    case Start =>
      AppendKeepsReplies(env, s.trace, CreateRequest(env));
    case PackageCreated =>
      AppendKeepsReplies(env, s.trace,
        AddFileRequest(env, s.manifest, XmlFile("dublincore-episode.xml", EpisodeCatalogOf(d)), CatalogFlavor, Catalog));
    case CatalogAttached =>
      AppendKeepsReplies(env, s.trace, AddFileRequest(env, s.manifest, Upload(d.filePath), TrackFlavor, Track));
  }

  /** One of the first three steps that does not abort: it sent its
      request, got a 2xx reply and moved on by one phase. */
  lemma EarlyStepTaken(env: Environment, d: EventData, s: Session)
    requires s.phase.Start? || s.phase.PackageCreated? || s.phase.CatalogAttached?
    requires !Step(env, d, s).phase.Aborted?
    ensures var next := Step(env, d, s);
      && next.phase.Remaining() == s.phase.Remaining() - 1
      && next.trace == s.trace + [EarlyRequest(env, d, s)]
      && Reply(env, next.trace, |s.trace|).Ok()
      && next.manifest == Reply(env, next.trace, |s.trace|).body
  {
    EarlyStep(env, d, s);
  }

  /** After the track, a run with no access-list choice stops at once
      without sending anything, and for a manifest that parses it stops
      for the missing choice. */
  lemma NoChoiceStep(env: Environment, d: EventData, s: Session)
    requires s.phase.TrackAttached? && !HasCustomAcl(d) && !HasAclName(d)
    ensures var last := Run(env, d, s);
      && last.phase.Aborted?
      && last.trace == s.trace
      && (env.parseXml(s.manifest).Some? ==> last.phase.failure == NoAclConfigured)
  {
    assert Run(env, d, s) == Step(env, d, s);
  }

  /** Without an access-list choice the run never ingests: it fails
      within the first three requests, and when those all succeed and the
      last manifest parses, it fails for the missing choice. */
  lemma MissingAclChoice(env: Environment, d: EventData)
    requires !HasCustomAcl(d) && !HasAclName(d)
    ensures var o := CreateEventMultiRequest(env, d);
      && o.result.Err?
      && |o.trace| <= 3
      && (|o.trace| == 3 && Reply(env, o.trace, 2).Ok() && env.parseXml(Reply(env, o.trace, 2).body).Some?
          ==> o.result.error == NoAclConfigured)
  {
    var s1 := Step(env, d, Initial);
    EarlyStep(env, d, Initial);
    assert Run(env, d, Initial) == Run(env, d, s1);
    if !s1.phase.Aborted? {
      var s2 := Step(env, d, s1);
      EarlyStep(env, d, s1);
      assert Run(env, d, s1) == Run(env, d, s2);
      if !s2.phase.Aborted? {
        var s3 := Step(env, d, s2);
        EarlyStep(env, d, s2);
        assert Run(env, d, s2) == Run(env, d, s3);
        if !s3.phase.Aborted? {
          NoChoiceStep(env, d, s3);
        }
      }
    }
  }

  // ---------------------------------------------------------------------
  // createEvent

  /** A refused event creation reports the status and body of the reply
      to the single event request, sent after the access list was
      settled. */
  lemma EventCreateFailure(env: Environment, d: EventData, trace: seq<Request>, status: int, body: string)
    requires CreateEvent(env, trace, d).result == Err(EventCreateFailed(status, body))
    ensures var t := CreateEvent(env, trace, d).trace;
      var selected := SelectGrants(env, trace, d);
      && selected.result.Ok?
      && t == selected.trace + [EventRequest(env, selected.result.value, d)]
      && Reply(env, t, |t| - 1) == Response(status, body)
      && !Reply(env, t, |t| - 1).Ok()
  {
    var selected := SelectGrants(env, trace, d);
    AppendKeepsReplies(env, selected.trace, EventRequest(env, selected.result.value, d));
  }

  /** With a custom access list `createEvent` sends exactly one request,
      whose first form field is that list. */
  lemma CreateEventPostsCustomAcl(env: Environment, d: EventData, trace: seq<Request>)
    requires HasCustomAcl(d)
    requires CreateEvent(env, trace, d).result.Ok?
    ensures var t := CreateEvent(env, trace, d).trace;
      && t == trace + [EventRequest(env, d.customAcl.value, d)]
      && |t[|trace|].form| == 4
      && t[|trace|].form[0] == FormField("acl", GrantsJson(d.customAcl.value))
  {
    assert env.readable(d.filePath);
  }

  /** The policy a run with a custom list attaches, as the file of its
      fourth request. */
  lemma AttachedCustomPolicy(env: Environment, d: EventData)
    requires HasCustomAcl(d)
    requires CreateEventMultiRequest(env, d).result.Ok?
    ensures var multi := CreateEventMultiRequest(env, d);
      && |multi.trace| == 5 && |multi.trace[3].form| == 3
      && multi.trace[3].form[2] == FormField("BODY1", XmlFile("attachment.xml", PolicyOf(d.customAcl.value, multi.result.value)))
  {
    IngestedWithCustomAcl(env, d);
  }

  /** With a custom access list the two ways of creating an event publish
      the same access: the list posted as `acl` by `createEvent` is the
      list the policy of `createEventMultiRequest` reads back to, and
      that policy permits exactly what the list grants. */
  lemma BothPathsGrantSameAccess(env: Environment, d: EventData, roles: set<string>, action: string)
    requires HasCustomAcl(d)
    requires CreateEventMultiRequest(env, d).result.Ok?
    requires CreateEvent(env, [], d).result.Ok?
    ensures var single := CreateEvent(env, [], d).trace;
      var multi := CreateEventMultiRequest(env, d);
      var policy := AclPolicy.PolicyDocument(d.customAcl.value, multi.result.value);
      && |single| == 1 && |single[0].form| == 4
      && single[0].form[0] == FormField("acl", GrantsJson(d.customAcl.value))
      && |multi.trace| == 5 && |multi.trace[3].form| == 3
      && multi.trace[3].form[2].part.XmlFile?
      && Render(multi.trace[3].form[2].part.document) == policy
      && AclPolicy.ReadGrants(policy.children) == d.customAcl.value
      && (AclPolicy.Evaluate(policy, roles, action) == AclPolicy.Permit <==> AclPolicy.Granted(d.customAcl.value, roles, action))
  {
    var grants := d.customAcl.value;
    CreateEventPostsCustomAcl(env, d, []);
    AttachedCustomPolicy(env, d);
    var multi := CreateEventMultiRequest(env, d);
    AclPolicy.PolicyGrantsRoundTrip(grants, multi.result.value);
    AclPolicy.PolicyDecision(grants, multi.result.value, roles, action);
  }
}
