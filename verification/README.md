# plugNmeet → Opencast ingester, modelled in Dafny

This project models the core of the plugNmeet-to-Opencast ingester. The ingester takes a finished plugNmeet recording and publishes it to an Opencast backend. The model covers:

- **Documents the ingester builds** (`src/utils.ts`):
  - the XACML-2.0-style access policy (`generateAclXML`). It has one permit rule per grant and then a default deny rule, and combines them with permit-overrides;
  - the Dublin Core episode catalog (`generateEpisodeCatalogXML`, from `generateEventMetadataObject`);
  - the fixed JSON field tables for events and series;
  - reading the media-package identifier out of a manifest (`getMediaPackageId`, `getAttributeByName`).
- **Service calls** (`src/services/OpencastService.ts`):
  - the authentication headers;
  - the ingest endpoints and their multipart forms;
  - the access-control template lookup, and the choice between a custom list, a named template and failure;
  - `getSeries`;
  - the single-request `createEvent`;
  - the five-step media-package protocol of `createEventMultiRequest`: create, add catalog, add track, add policy, ingest. It is modelled as a state machine that threads the manifest returned by each step into the next.

Modules:

- `Wrappers`: `Option` and `Result`.
- `Text`: comma join and split, ASCII lower-casing.
- `Xml`: an element tree with first-match look-ups.
- `Records`: the event and series records.
- `AclPolicy`: the policy builder, a reader that recovers the grants, and an evaluator for permit-overrides over the document as the builder writes it.
- `EpisodeCatalog`: the Dublin Core catalog.
- `MetadataJson`: the JSON field tables.
- `MediaPackage`: the identifier look-up.
- `Http`: requests, responses and authentication headers.
- `Opencast`: the service calls and the protocol.
- `IngestProtocol`: properties of whole runs.

Everything outside the client is a field of `Opencast.Environment`:

- The backend is a function from the requests sent so far and a new request to a `Response(status, body)`. `Ok()` holds exactly for a status of 200 to 299, as `fetch`'s `res.ok` does.
- The XML parser, the JSON decoders of the template list and the event identifier, the base64 encoder and the file-system readability check are further fields of the environment.

A run's result is an `Outcome`: the requests sent, plus either a value or a `Failure`. Each thrown `Error` of the source is one `Failure` constructor. A request's XML file part names what its document is generated from (`EpisodeCatalogOf(d)` or `PolicyOf(grants, id)`), and `Opencast.Render` gives that document.

Behaviour of the code worth noting:

- The episode catalog's children come in the insertion order of `generateEventMetadataObject`: created, temporal, isPartOf, language, spatial, title, subjects, description, publishers, creators, contributors, rightsHolder, license.
- An empty grant list is accepted by `generateAclXML` and yields a policy with only the deny rule. Nothing rejects it.
- Every call builds its headers with `getAuthHeader()` and no roles, so `X-RUN-WITH-ROLES` is never sent, including on the template lookup.

## Model

| member | source | states |
|---|---|---|
| Text.SplitJoin | src/utils.ts:259 | a list joined with `,` splits back into the same list, provided it is non-empty and no item contains a comma |
| Text.JoinInjective | src/utils.ts:259 | two comma-free non-empty lists with the same comma-joined text are equal |
| Text.LowerIdempotent | src/services/OpencastService.ts:181 | lower-casing twice gives the same text as lower-casing once |
| Text.LowerHasNoCapitals | src/services/OpencastService.ts:181 | lower-casing keeps the length and leaves no upper-case ASCII letter |
| Xml.LookupAttribute | src/utils.ts:160-164 | `getNamedItem`: nothing exactly when no attribute has the name; otherwise the value of the first attribute with that name |
| Xml.AttributeByName | src/utils.ts:160-164 | `getAttributeByName`: nothing exactly when the element has no attribute of that name; otherwise the value of the first such attribute |
| MediaPackage.MediaPackageId | src/utils.ts:166-169 | failure exactly when the manifest does not parse; a non-empty result is the value of the root's first `id` attribute; `""` only when no such attribute exists or its value is empty |
| MediaPackage.MediaPackageIdOf | src/utils.ts:166-169 | a root whose first `id` attribute carries a value yields exactly that value |
| Http.AuthHeaders | src/services/OpencastService.ts:25-33 | `Authorization: Basic b64(user:password)` and then `X-API-AS-USER: user`; a third header `X-RUN-WITH-ROLES` exactly when roles are given, holding them comma-joined |
| Http.AuthHeadersByName | src/services/OpencastService.ts:25-33 | looked up by name, the headers give the credentials and the user, and `X-RUN-WITH-ROLES` is present if and only if roles were given |
| Http.AuthRolesRoundTrip | src/services/OpencastService.ts:29-31 | splitting the `X-RUN-WITH-ROLES` value on commas recovers the roles, when no role contains a comma |
| MetadataJson.EventMetadataJson | src/utils.ts:80-136 | one catalog, flavor `dublincore/episode`, whose field ids are the twelve event ids in the source's order |
| MetadataJson.SeriesMetadataJson | src/utils.ts:35-79 | one catalog, flavor `dublincore/series`, whose field ids are the nine series ids in order |
| MetadataJson.EpisodeIdsDistinct | src/utils.ts:84-133 | no event field id occurs twice |
| MetadataJson.SeriesIdsDistinct | src/utils.ts:39-76 | no series field id occurs twice |
| MetadataJson.EpisodeFieldsByName | src/utils.ts:80-136 | each event field id looks up the record value it is built from: title, subjects, description, language, rights, license, series id, people lists, ISO start date, start time |
| MetadataJson.SeriesFieldsByName | src/utils.ts:35-79 | each series field id looks up its record value, and a series has no `isPartOf` field |
| MetadataJson.SeriesLacksIsPartOf | src/utils.ts:35-79 | looking up `isPartOf` in a series table finds nothing: no field has that id |
| MetadataJson.SeriesAgreesWithEpisode | src/utils.ts:35-136 | for equal shared data, the series table is the event table without `isPartOf`, `startDate` and `startTime` |
| EpisodeCatalog.Catalog | src/utils.ts:225-265 | the catalog root is `dublincore` and carries the `xmlns`, `xmlns:terms` and `xmlns:xsi` namespace attributes in that order. It has one child per metadata key, named `terms:<key>`, in the object's key order. No child has children, and every child but the period has no attributes. |
| EpisodeCatalog.KeysDistinct | src/utils.ts:138-158 | the thirteen keys of the metadata object are pairwise different |
| EpisodeCatalog.MetadataObject | src/utils.ts:138-158 | the metadata object has the thirteen keys in insertion order, and only `temporal` holds a nested object |
| EpisodeCatalog.NoExtentKeys | src/utils.ts:236-243 | no key of the metadata object is `duration`, `extent` or `startDate`, so those rendering branches are never taken |
| EpisodeCatalog.TermAt | src/utils.ts:233-263 | looking up `terms:<key>` finds that key's child |
| EpisodeCatalog.CatalogTemporal | src/utils.ts:141-145 | the second child is exactly `terms:temporal`, of `xsi:type` `terms:Period`, with text `start=<iso>; end=<iso>; scheme=W3C-DTF; ` (three `Pair`s, each ending in the `; ` separator) and no children |
| EpisodeCatalog.TermTextAt | src/utils.ts:233-261 | the text found under each key is the rendering of that key's value |
| EpisodeCatalog.ReadBackCreated | src/utils.ts:140 | the `created` term reads back as the ISO text of the start |
| EpisodeCatalog.ReadBackIsPartOf | src/utils.ts:146 | the `isPartOf` term reads back as the series id |
| EpisodeCatalog.ReadBackLanguage | src/utils.ts:147 | the `language` term reads back as the language |
| EpisodeCatalog.ReadBackSpatial | src/utils.ts:148 | the `spatial` term reads back as the location |
| EpisodeCatalog.ReadBackTitle | src/utils.ts:149 | the `title` term reads back as the title |
| EpisodeCatalog.ReadBackDescription | src/utils.ts:151 | the `description` term reads back as the description |
| EpisodeCatalog.ReadBackRightsHolder | src/utils.ts:155 | the `rightsHolder` term reads back as the rights |
| EpisodeCatalog.ReadBackLicense | src/utils.ts:156 | the `license` term reads back as the license |
| EpisodeCatalog.ReadBackSubjects | src/utils.ts:150 | the `subjects` term reads back as the comma-joined subjects |
| EpisodeCatalog.ReadBackPublishers | src/utils.ts:152 | the `publishers` term reads back as the comma-joined publishers |
| EpisodeCatalog.ReadBackCreators | src/utils.ts:153 | the `creators` term reads back as the comma-joined creators |
| EpisodeCatalog.ReadBackContributors | src/utils.ts:154 | the `contributors` term reads back as the comma-joined contributors |
| EpisodeCatalog.CatalogScalarsReadBack | src/utils.ts:139-157 | every single-valued term reads back as the record field it came from |
| EpisodeCatalog.CatalogListsReadBack | src/utils.ts:256-260 | every list term reads back as its list joined with `,` and no spaces |
| EpisodeCatalog.CatalogListsRoundTrip | src/utils.ts:259 | splitting a list term on `,` recovers the list, when it is non-empty and no item contains a comma |
| AclPolicy.PermitRuleTop | src/utils.ts:180-214 | a grant's rule is `<role>_<action>_PERMIT` with effect `Permit`, and its `Target` and `Condition` children are found by name |
| AclPolicy.PermitRuleParts | src/utils.ts:180-214 | a grant's rule's target matches the action by string-equal. Its condition's string-is-in `Apply` holds the role. Both values are reached by the paths the reader uses. |
| AclPolicy.DenyRuleParts | src/utils.ts:217-221 | the deny rule is `DenyRule` with effect `Deny`, and has neither target nor condition |
| AclPolicy.PermitRules | src/utils.ts:180-184 | one rule per grant, rule i built from grant i |
| AclPolicy.PolicyDocument | src/utils.ts:171-223 | root `dublincore`. `PolicyId` is the id, or `mediapackage-1` when the id is empty. Version `2.0`, permit-overrides, XACML namespace. Exactly `|grants| + 1` rules: rule i permits grant i, and the last is the childless, textless deny rule, also for no grants. |
| AclPolicy.PermitRuleTarget | src/utils.ts:187-200 | each permit rule's `ActionMatch` is string-equal, and both its `ActionValue` and its `ActionAttributeDesignator` carry the grant's action |
| AclPolicy.PermitRuleCondition | src/utils.ts:203-214 | each permit rule's condition is a string-is-in `Apply` whose `AttributeValue` holds the grant's role, followed by a text-less `SubjectAttributeDesignator` for the subject role |
| AclPolicy.PermitRuleReadsBack | src/utils.ts:180-214 | reading a grant's rule back yields that grant |
| AclPolicy.RulesReadBack | src/utils.ts:180-221 | reading the permit rules followed by the deny rule yields the grants, in order |
| AclPolicy.PolicyGrantsRoundTrip | src/utils.ts:171-223 | reading a generated policy back yields exactly the grants it was built from, in order |
| AclPolicy.PermitRuleApplies | src/utils.ts:180-214 | a grant's permit rule applies to a request exactly when the request's action is the grant's action and its roles include the grant's role |
| AclPolicy.DenyRuleApplies | src/utils.ts:217-221 | the deny rule applies to every request |
| AclPolicy.PermitRulesApply | src/utils.ts:180-221 | some permit rule of the policy applies exactly when some grant names the request's action and one of its roles |
| AclPolicy.PolicyDecision | src/utils.ts:173-221 | under permit-overrides, read over the builder's own variant of the format (see `AclPolicy.PolicyDecision` under Left out), the policy permits a request exactly when a grant covers it, and denies it otherwise |
| Opencast.EndpointsDistinct | src/services/OpencastService.ts:82-87 | the three kinds of file go to three different endpoints |
| Opencast.CreateMediaPackage | src/services/OpencastService.ts:44-53 | one GET to `/ingest/createMediaPackage`; success exactly on a 2xx reply, giving its body verbatim; otherwise a failure carrying status and body |
| Opencast.AddFile | src/services/OpencastService.ts:69-94 | one POST with form fields `mediaPackage`, `flavor`, `BODY1` in that order to the kind's endpoint; success exactly on a 2xx reply, giving its body verbatim; otherwise a failure carrying the kind, status and body |
| Opencast.AddTrack | src/services/OpencastService.ts:59-62 | an unreadable recording fails before any request; otherwise the recording is uploaded as `BODY1` to `/ingest/addTrack` |
| Opencast.AddDCCatalog | src/services/OpencastService.ts:54-57 | one upload of the catalog document as `dublincore-episode.xml`, of kind Catalog. It succeeds with the reply's body exactly on a 2xx reply, and otherwise fails with the Catalog kind, the status and the body. |
| Opencast.AddAttachment | src/services/OpencastService.ts:64-67 | one upload of the attachment document as `attachment.xml`, of kind Attachment. It succeeds with the reply's body exactly on a 2xx reply, and otherwise fails with the Attachment kind, the status and the body. |
| Opencast.Ingest | src/services/OpencastService.ts:96-112 | one POST to `/ingest/ingest` with `mediaPackage`, `workflowDefinitionId`, `workflowInstanceId`; the result reports whether the reply was 2xx; a reply always arrives (see `Opencast.Ingest` under Left out) |
| Opencast.AccessListTemplates | src/services/OpencastService.ts:184-192 | exactly one GET to `/acl-manager/acl/acls.json`. A non-2xx reply fails with its status, an undecodable body fails with that body, and otherwise the result is the decoded list. |
| Opencast.FindTemplate | src/services/OpencastService.ts:179-182 | nothing exactly when no template's name matches ignoring case; otherwise the first template that matches |
| Opencast.FindTemplateIgnoresCase | src/services/OpencastService.ts:181 | names that agree after lower-casing find the same template |
| Opencast.AccessListTemplate | src/services/OpencastService.ts:179-182 | exactly one template-list request is sent. Its failures are those of the list request. Otherwise the result is the search over the decoded list: the first case-insensitive match, or none. |
| Opencast.SelectGrants | src/services/OpencastService.ts:143-151 | a custom list wins and sends nothing. A template name alone sends one list request. A non-2xx reply fails with its status, and an undecodable body fails with that body. A name no template matches fails as not found. Otherwise the grants are the entries of the first case-insensitively matching template. With neither, the call fails with no request. |
| Opencast.SelectedTemplate | src/services/OpencastService.ts:146-148 | a grant list chosen by name is the entries of the first listed template whose name matches case-insensitively, from a 2xx reply that decoded |
| Opencast.GetSeries | src/services/OpencastService.ts:194-204 | one GET to `/api/series/series.json?seriesTitle=<title>`. A non-2xx reply fails with the title and status. A 2xx body that does not decode fails with that body. Otherwise the result is the first listed series, or nothing exactly when the list is empty. |
| Opencast.CreateEvent | src/services/OpencastService.ts:142-177 | a failed access-list choice is returned as is, and an unreadable file then fails before any POST. Otherwise exactly one POST to `/api/events` follows the settled access list. A non-2xx reply fails with its status and body. A 2xx reply yields the decoded identifier, or fails when the body does not decode. |
| Opencast.AttachAcl | src/services/OpencastService.ts:124-136 | the fourth step either attaches the policy or aborts, and never forgets a request already sent |
| Opencast.Step | src/services/OpencastService.ts:114-140 | each step moves one phase forward or aborts, and only adds requests |
| Opencast.Run | src/services/OpencastService.ts:114-140 | a run ends ingested or aborted, and its trace extends the one it started from |
| Opencast.RunStartsWithCreate | src/services/OpencastService.ts:114-115 | the first request of every run is the create-media-package request |
| Opencast.CreateEventMultiRequest | src/services/OpencastService.ts:114-115 | every run, successful or not, starts by sending the create-media-package request |
| IngestProtocol.EarlierRepliesOk | src/services/OpencastService.ts:114-140 | a run stops at the first refused request: every request before the last was answered 2xx |
| IngestProtocol.FailureExplained | src/services/OpencastService.ts:114-140 | a failed run reports its cause. A refused request's status and body come from the last reply. The malformed manifest is the last reply's body. A missing template was absent from the decoded list. The unreadable file is the event's. The missing ACL choice holds of the event. |
| IngestProtocol.IngestReplyIgnored | src/services/OpencastService.ts:137-139 | whatever the backend answers to the ingest request, the run sends the same requests and returns the same identifier or failure |
| IngestProtocol.EarlyStep | src/services/OpencastService.ts:115-122 | each of create, add catalog and add track sends at most one request, the one for its phase. It fails to send only when the recording is unreadable. The run goes on exactly when that request was answered 2xx, and the reply's body becomes the manifest. |
| IngestProtocol.EarlyStepTaken | src/services/OpencastService.ts:115-122 | a first, second or third step that does not abort sent its phase's request, got a 2xx reply, took its body as the manifest, and moved on one phase |
| IngestProtocol.NoChoiceStep | src/services/OpencastService.ts:125-134 | after the track, with neither a custom list nor a template name, the run stops without sending anything. For a manifest that parses, the failure is the missing choice. |
| IngestProtocol.TrackPrefixKept | src/services/OpencastService.ts:115-122 | requests sent later leave the first three requests and their successful replies as they were |
| IngestProtocol.ThroughCatalog | src/services/OpencastService.ts:115-119 | an ingested run starts with create and then the catalog upload, which carries the create reply's manifest. Both are answered 2xx. |
| IngestProtocol.ThroughTrack | src/services/OpencastService.ts:115-122 | an ingested run starts with create, add catalog (`dublincore/episode`) and add track (`presentation/source`). Each carries the manifest the previous reply returned, and all three are answered 2xx. |
| IngestProtocol.CustomAclStep | src/services/OpencastService.ts:125-128 | with a custom list, the fourth step attaches one policy to the track's manifest. The policy is built from the list and the identifier read from that manifest. |
| IngestProtocol.TemplateAclStep | src/services/OpencastService.ts:125-136 | with a template, the fourth step fetches the list and then attaches the policy of the first matching template to the track's manifest, with the identifier read from that manifest |
| IngestProtocol.IngestStep | src/services/OpencastService.ts:137-139 | the last step sends the ingest request with `schedule-and-upload` and the manifest of the policy upload, and the run ends ingested with the identifier unchanged |
| IngestProtocol.IngestedWithCustomAcl | src/services/OpencastService.ts:114-139 | an ingested run with a custom list makes exactly five requests, in order, each carrying the previous manifest, and the first four are answered 2xx. The returned id is read from the track reply's manifest. The policy attached (`security/xacml+episode`) is built from the list and that id. |
| IngestProtocol.IngestedWithTemplate | src/services/OpencastService.ts:114-139 | an ingested run with a template makes exactly six requests, and the first five are answered 2xx. The template list is fetched between the track and the policy. The policy holds the first case-insensitively matching template's entries and is added to the track's manifest. The id returned is read from that manifest. |
| IngestProtocol.MissingAclChoice | src/services/OpencastService.ts:125-134 | with neither a custom list nor a template name the run never ingests. It fails within three requests. When create, catalog and track succeed and the manifest parses, it fails for the missing choice. |
| IngestProtocol.ReachTrack | src/services/OpencastService.ts:115-122 | with a backend that answers 2xx with parsable manifests and a readable recording, the run reaches the ACL step with a manifest that parses |
| IngestProtocol.AclStepSucceeds | src/services/OpencastService.ts:124-136 | with such a backend, a custom list or a template name that the list matches always attaches the policy |
| IngestProtocol.IngestSucceeds | src/services/OpencastService.ts:114-140 | the success direction. With such a backend, a readable recording, and either a custom list or a template that is found, the run ingests after five (custom) or six (template) requests. It returns the identifier read from the track upload's manifest. |
| IngestProtocol.EventCreateFailure | src/services/OpencastService.ts:170-176 | a refused event creation carries the status and body of the reply to the one event POST, which followed the access-list choice |
| IngestProtocol.CreateEventPostsCustomAcl | src/services/OpencastService.ts:143-161 | with a custom list, a successful `createEvent` sent one request whose first form field `acl` is that list |
| IngestProtocol.BothPathsGrantSameAccess | src/services/OpencastService.ts:127-161 | with a custom list, the `(role, action)` pairs `createEvent` posts as JSON and those of the policy `createEventMultiRequest` attaches agree. The policy reads back to the list, and permits a request exactly when some entry's role and action cover it. |

## Left out

- HTTP transport: `node-fetch`, the multipart encoding, `Content-Type` and `Content-Length` headers, and the `size: 0` option are not modelled. A request is its method, URL, the authentication headers and the ordered form fields.
- XML serialisation and parsing (xmlbuilder2's `create`, `.end(...)`, `_attributeList`) are a foreign library. Documents are element trees, and parsing is the `parseXml` parameter.
- JSON: `JSON.stringify` and `res.json()` are not modelled. The posted `acl`, `metadata` and `processing` parts hold the values they serialise. Decoding the template list and the event identifier are parameters. A template is reduced to its name and its `acl.ace` entries.
- `Date.toISOString` / `toTimeString` and `Buffer` base64: a date is its two pre-formatted strings, and base64 is a parameter.
- Dates are assumed valid. `toISOString` throws a `RangeError` on an Invalid Date, which `src/index.ts` produces when the file name has no `-<digits>` part. In `createEventMultiRequest` that throw would come after the create request (src/utils.ts:140, 258), and in `createEvent` it would come from src/utils.ts:127. The model always renders the date, so `IngestProtocol.EarlyStep` lets the run continue after the create request.
- `fileFromPath` and streaming the recording: a file is its path plus a readability predicate.
- Error messages: a thrown `Error`'s text is not modelled. Each failure is a `Failure` value carrying the status, body, name or path the message would interpolate.
- `getConfig`, `getPostProcessData` (src/utils.ts:10-33), `src/index.ts` and `src/services/PlugNMeetService.ts`: file, argument and SDK I/O around the core.
- async/await: the protocol is strictly sequential and is modelled as a sequence of steps.
- `src/enums/AttachmentType.ts` is not part of this model. The kind of file is the datatype `AttachmentKind`, and a failure carries it as a value, not as the enum's string.
- `ICreateSeriesData.acl_name` is unused by the modelled functions.
- Text.Lower: lower-cases ASCII letters only, weaker than JavaScript's Unicode `toLowerCase`, which the model does not reproduce.
- Opencast.Ingest: the backend always answers. A rejected `fetch` (a network error, src/services/OpencastService.ts:110) is not modelled. In the source it would propagate out of `createEventMultiRequest` at line 137 with no identifier returned. The same holds for every other request: a request that gets no reply is outside the model, and a run in the model always ends ingested or aborted with a `Failure`.
- IngestProtocol.BothPathsGrantSameAccess: an access-control entry is reduced to its `role` and `action`, the two fields `generateAclXML` reads (src/utils.ts:182, 196, 210). `createEvent` posts the entries whole through `JSON.stringify` (src/services/OpencastService.ts:145, 148), so any other field, such as Opencast's `allow` flag, reaches the JSON path and not the policy. An entry with `allow: false` still becomes a Permit rule. The agreement is stated for the `(role, action)` projection only.
- Opencast.CreateEvent: the decoding of the reply to the event POST is the `decodeIdentifier` parameter. It gives one outcome, `None`, for a body that is not JSON and for JSON without an `identifier`. The source throws for the first but returns `undefined` for the second (src/services/OpencastService.ts:172-173). The model fails with `MalformedJson` in both cases, so it cannot represent a creation that resolves to `undefined`.
- AclPolicy.PolicyDecision: the document is XACML-2.0-style, not conforming XACML 2.0. Its root is named `dublincore` (src/utils.ts:173). Its `ActionMatch` holds an `ActionValue` element where XACML 2.0 requires `AttributeValue` (src/utils.ts:194-196). Its `ActionAttributeDesignator` carries text (src/utils.ts:200). `Evaluate` reads the `ActionValue` text as the literal to match and ignores the designators and the root's name. So the decision is the one permit-overrides gives over the builder's own variant of the format, not what a conforming XACML 2.0 engine would decide on this document.
