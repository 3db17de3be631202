/** The input records of the ingester: the event to create, the series
    metadata, and access grants. */
module Records {
  import opened Wrappers

  /** A point in time, carried as the two renderings the source asks of a
      JavaScript `Date`: `toISOString()` and `toTimeString()`. */
  datatype Instant = Instant(iso: string, timeString: string)

  /** "`role` may perform `action`": one entry of an access-control list. */
  datatype Grant = Grant(role: string, action: string)

  /** `ICreateEventData`. The optional `aclName` and `custom_acl_config` are
      `None` when absent; `processing` is the processing configuration,
      carried as its JSON text. */
  datatype EventData = EventData(
    title: string,
    subjects: seq<string>,
    description: string,
    location: string,
    lang: string,
    license: string,
    seriesId: string,
    rights: string,
    contributors: seq<string>,
    creators: seq<string>,
    publishers: seq<string>,
    started: Instant,
    ended: Instant,
    filePath: string,
    aclName: Option<string>,
    processing: string,
    customAcl: Option<seq<Grant>>)

  /** `ICreateSeriesData`. */
  datatype SeriesData = SeriesData(
    name: string,
    description: string,
    subjects: seq<string>,
    lang: string,
    creators: seq<string>,
    contributors: seq<string>,
    publishers: seq<string>,
    license: string,
    rights: string,
    aclName: string)

  /** JavaScript truthiness of `data.custom_acl_config`: any array, even an
      empty one, is truthy. */
  predicate HasCustomAcl(d: EventData) {
    d.customAcl.Some?
  }

  /** JavaScript truthiness of `data.aclName`: present and not the empty string. */
  predicate HasAclName(d: EventData) {
    d.aclName.Some? && d.aclName.value != ""
  }
}
