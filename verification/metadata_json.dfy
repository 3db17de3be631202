/** The JSON metadata tables of `generateEventMetadataJson` and
    `generateSeriesMetadataJson`: one catalog object with a flavor and a
    fixed, ordered list of `{id, value}` fields. JSON is kept as values,
    not text. */
module MetadataJson {
  import opened Wrappers
  import opened Records

  datatype JsonValue = JString(s: string) | JStrings(items: seq<string>)

  datatype Field = Field(id: string, value: JsonValue)

  datatype MetadataCatalog = MetadataCatalog(flavor: string, fields: seq<Field>)

  const EpisodeFieldIds: seq<string> := [
    "title", "subjects", "description", "language", "rightsHolder", "license",
    "isPartOf", "creator", "contributor", "publisher", "startDate", "startTime"
  ]

  const SeriesFieldIds: seq<string> := [
    "title", "subjects", "description", "language", "rightsHolder", "license",
    "creator", "contributor", "publisher"
  ]

  /** The ids of the fields, in order. */
  function Ids(fields: seq<Field>): (ids: seq<string>)
    ensures |ids| == |fields|
    ensures forall i :: 0 <= i < |fields| ==> ids[i] == fields[i].id
  {
    seq(|fields|, i requires 0 <= i < |fields| => fields[i].id)
  }

  predicate Distinct(ids: seq<string>) {
    forall i, j :: 0 <= i < j < |ids| ==> ids[i] != ids[j]
  }

  /** The value of the first field with id `id`, as a consumer reads it. */
  function FieldValue(fields: seq<Field>, id: string): (r: Option<JsonValue>)
    ensures r.None? <==> forall i :: 0 <= i < |fields| ==> fields[i].id != id
    ensures r.Some? ==> exists i :: 0 <= i < |fields| && fields[i] == Field(id, r.value)
  {
    if |fields| == 0 then None
    else if fields[0].id == id then Some(fields[0].value)
    else
      var r := FieldValue(fields[1..], id);
      if r.Some? then
        var i :| 0 <= i < |fields[1..]| && fields[1..][i] == Field(id, r.value);
        assert fields[i + 1] == Field(id, r.value);
        r
      else r
  }

  /** With distinct ids, looking a field up by its id finds that field. */
  lemma {:induction false} FieldValueAt(fields: seq<Field>, i: int)
    requires Distinct(Ids(fields))
    requires 0 <= i < |fields|
    ensures FieldValue(fields, fields[i].id) == Some(fields[i].value)
  {
    var r := FieldValue(fields, fields[i].id);
    var k :| 0 <= k < |fields| && fields[k] == Field(fields[i].id, r.value);
    assert Ids(fields)[k] == Ids(fields)[i];
  }

  /** `generateEventMetadataJson(data)`. */
  function EventMetadataJson(d: EventData): (r: seq<MetadataCatalog>)
    ensures |r| == 1 && r[0].flavor == "dublincore/episode"
    ensures Ids(r[0].fields) == EpisodeFieldIds
  {
    [MetadataCatalog("dublincore/episode", [
      Field("title", JString(d.title)),
      Field("subjects", JStrings(d.subjects)),
      Field("description", JString(d.description)),
      Field("language", JString(d.lang)),
      Field("rightsHolder", JString(d.rights)),
      Field("license", JString(d.license)),
      Field("isPartOf", JString(d.seriesId)),
      Field("creator", JStrings(d.creators)),
      Field("contributor", JStrings(d.contributors)),
      Field("publisher", JStrings(d.publishers)),
      Field("startDate", JString(d.started.iso)),
      Field("startTime", JString(d.started.timeString))
    ])]
  }

  /** `generateSeriesMetadataJson(data)`. */
  function SeriesMetadataJson(s: SeriesData): (r: seq<MetadataCatalog>)
    ensures |r| == 1 && r[0].flavor == "dublincore/series"
    ensures Ids(r[0].fields) == SeriesFieldIds
  {
    [MetadataCatalog("dublincore/series", [
      Field("title", JString(s.name)),
      Field("subjects", JStrings(s.subjects)),
      Field("description", JString(s.description)),
      Field("language", JString(s.lang)),
      Field("rightsHolder", JString(s.rights)),
      Field("license", JString(s.license)),
      Field("creator", JStrings(s.creators)),
      Field("contributor", JStrings(s.contributors)),
      Field("publisher", JStrings(s.publishers))
    ])]
  }

  lemma EpisodeIdsDistinct()
    ensures Distinct(EpisodeFieldIds)
  {
  }

  lemma SeriesIdsDistinct()
    ensures Distinct(SeriesFieldIds)
  {
  }

  /** Every field of the episode table is found by its id and carries the
      event's value: strings as they are, lists as arrays, the start as
      its ISO and time-of-day renderings. */
  lemma EpisodeFieldsByName(d: EventData)
    ensures var f := EventMetadataJson(d)[0].fields;
      && FieldValue(f, "title") == Some(JString(d.title))
      && FieldValue(f, "subjects") == Some(JStrings(d.subjects))
      && FieldValue(f, "description") == Some(JString(d.description))
      && FieldValue(f, "language") == Some(JString(d.lang))
      && FieldValue(f, "rightsHolder") == Some(JString(d.rights))
      && FieldValue(f, "license") == Some(JString(d.license))
      && FieldValue(f, "isPartOf") == Some(JString(d.seriesId))
      && FieldValue(f, "creator") == Some(JStrings(d.creators))
      && FieldValue(f, "contributor") == Some(JStrings(d.contributors))
      && FieldValue(f, "publisher") == Some(JStrings(d.publishers))
      && FieldValue(f, "startDate") == Some(JString(d.started.iso))
      && FieldValue(f, "startTime") == Some(JString(d.started.timeString))
  {
    var f := EventMetadataJson(d)[0].fields;
    EpisodeIdsDistinct();
    FieldValueAt(f, 0);
    FieldValueAt(f, 1);
    FieldValueAt(f, 2);
    FieldValueAt(f, 3);
    FieldValueAt(f, 4);
    FieldValueAt(f, 5);
    FieldValueAt(f, 6);
    FieldValueAt(f, 7);
    FieldValueAt(f, 8);
    FieldValueAt(f, 9);
    FieldValueAt(f, 10);
    FieldValueAt(f, 11);
  }

  /** A series table has no `isPartOf` field: a series belongs to no
      other series. */
  lemma SeriesLacksIsPartOf(s: SeriesData)
    ensures FieldValue(SeriesMetadataJson(s)[0].fields, "isPartOf").None?
  {
    var f := SeriesMetadataJson(s)[0].fields;
    forall i | 0 <= i < |f|
      ensures f[i].id != "isPartOf"
    {
      assert f[i].id == SeriesFieldIds[i];
    }
  }

  /** Every field of the series table is found by its id and carries the
      series' value. */
  lemma SeriesFieldsByName(s: SeriesData)
    ensures var f := SeriesMetadataJson(s)[0].fields;
      && FieldValue(f, "title") == Some(JString(s.name))
      && FieldValue(f, "subjects") == Some(JStrings(s.subjects))
      && FieldValue(f, "description") == Some(JString(s.description))
      && FieldValue(f, "language") == Some(JString(s.lang))
      && FieldValue(f, "rightsHolder") == Some(JString(s.rights))
      && FieldValue(f, "license") == Some(JString(s.license))
      && FieldValue(f, "creator") == Some(JStrings(s.creators))
      && FieldValue(f, "contributor") == Some(JStrings(s.contributors))
      && FieldValue(f, "publisher") == Some(JStrings(s.publishers))
      && FieldValue(f, "isPartOf").None?
  {
    var f := SeriesMetadataJson(s)[0].fields;
    SeriesIdsDistinct();
    SeriesLacksIsPartOf(s);
    FieldValueAt(f, 0);
    FieldValueAt(f, 1);
    FieldValueAt(f, 2);
    FieldValueAt(f, 3);
    FieldValueAt(f, 4);
    FieldValueAt(f, 5);
    FieldValueAt(f, 6);
    FieldValueAt(f, 7);
    FieldValueAt(f, 8);
  }

  /** A series table and an episode table built from records that agree on
      their shared metadata: the series table is the episode table without
      `isPartOf`, `startDate` and `startTime`, in the same order. */
  lemma SeriesAgreesWithEpisode(d: EventData, s: SeriesData)
    requires s.name == d.title && s.subjects == d.subjects && s.description == d.description
    requires s.lang == d.lang && s.rights == d.rights && s.license == d.license
    requires s.creators == d.creators && s.contributors == d.contributors && s.publishers == d.publishers
    ensures var series := SeriesMetadataJson(s)[0].fields;
      var episode := EventMetadataJson(d)[0].fields;
      && |series| + 3 == |episode|
      && series == episode[..6] + episode[7..10]
      && episode[6].id == "isPartOf" && episode[10].id == "startDate" && episode[11].id == "startTime"
  {
  }
}
