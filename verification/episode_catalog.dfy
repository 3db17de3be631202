/** The episode catalog of `generateEpisodeCatalogXML`: a Dublin Core
    (DCMI Metadata Terms) document with one `terms:` element per key of the
    event's metadata object, in the object's insertion order. */
module EpisodeCatalog {
  import opened Wrappers
  import opened Text
  import opened Xml
  import opened Records

  const CatalogNamespace := "http://www.opencastproject.org/xsd/1.0/dublincore/"
  const TermsNamespace := "http://purl.org/dc/terms/"
  const XsiNamespace := "http://www.w3.org/2001/XMLSchema-instance"

  /** A value inside a nested metadata object: a string or a date. */
  datatype Scalar = Plain(s: string) | Moment(at: Instant)

  datatype Entry = Entry(key: string, value: Scalar)

  /** A value of the metadata object, by its JavaScript shape. */
  datatype Value =
    | Str(s: string)
    | Strs(items: seq<string>)
    | Date(at: Instant)
    | Struct(entries: seq<Entry>)

  datatype Property = Property(key: string, value: Value)

  /** The keys of the event metadata object, in insertion order. */
  const CatalogKeys: seq<string> := [
    "created", "temporal", "isPartOf", "language", "spatial", "title", "subjects",
    "description", "publishers", "creators", "contributors", "rightsHolder", "license"
  ]

  /** `generateEventMetadataObject(data)`: the period is a nested object
      `{start, end, scheme}`. */
  function MetadataObject(d: EventData): (props: seq<Property>)
    ensures |props| == |CatalogKeys|
    ensures forall i :: 0 <= i < |props| ==> props[i].key == CatalogKeys[i]
    ensures forall i :: 0 <= i < |props| ==> (props[i].value.Struct? <==> i == 1)
  {
    [
      Property("created", Date(d.started)),
      Property("temporal", Struct([
        Entry("start", Moment(d.started)),
        Entry("end", Moment(d.ended)),
        Entry("scheme", Plain("W3C-DTF"))
      ])),
      Property("isPartOf", Str(d.seriesId)),
      Property("language", Str(d.lang)),
      Property("spatial", Str(d.location)),
      Property("title", Str(d.title)),
      Property("subjects", Strs(d.subjects)),
      Property("description", Str(d.description)),
      Property("publishers", Strs(d.publishers)),
      Property("creators", Strs(d.creators)),
      Property("contributors", Strs(d.contributors)),
      Property("rightsHolder", Str(d.rights)),
      Property("license", Str(d.license))
    ]
  }

  function ScalarText(v: Scalar): string {
    match v
    case Plain(s) => s
    case Moment(t) => t.iso
  }

  /** JavaScript's string conversion of a non-date value. */
  function Coerce(v: Value): string
    requires !v.Date?
  {
    match v
    case Str(s) => s
    case Strs(items) => Join(items, ',')
    case Struct(_) => "[object Object]"
  }

  /** One `key=value; ` pair of a period text. */
  function Pair(key: string, text: string): string {
    key + "=" + text + "; "
  }

  /** `key=value; ` for each entry, dates in ISO form. */
  function EntriesText(entries: seq<Entry>): string {
    if |entries| == 0 then ""
    else Pair(entries[0].key, ScalarText(entries[0].value)) + EntriesText(entries[1..])
  }

  /** `index=item; ` for each item of an array, indices counted from `from`. */
  function IndexedText(items: seq<string>, from: nat): string
    decreases |items|
  {
    if |items| == 0 then ""
    else Pair(Decimal(from), items[0]) + IndexedText(items[1..], from + 1)
  }

  /** The text of a `terms:temporal` element: the enumerable entries of an
      object value (a date has none), or a string value as it is. */
  function PeriodText(v: Value): string {
    match v
    case Str(s) => s
    case Date(_) => ""
    case Strs(items) => IndexedText(items, 0)
    case Struct(entries) => EntriesText(entries)
  }

  /** The per-key rendering switch of the catalog builder. */
  function RenderProperty(p: Property): Element {
    if p.key == "duration" || p.key == "extent" then
      Element("terms:extent", [Attribute("xsi:type", "terms:ISO8601")],
        if p.value.Date? then p.value.at.iso else Coerce(p.value), [])
    else if p.key == "startDate" || p.key == "temporal" then
      Element("terms:temporal", [Attribute("xsi:type", "terms:Period")], PeriodText(p.value), [])
    else
      Element("terms:" + p.key, [],
        match p.value
        case Date(t) => t.iso
        case Strs(items) => Join(items, ',')
        case _ => Coerce(p.value), [])
  }

  function RenderAll(props: seq<Property>): (elements: seq<Element>)
    ensures |elements| == |props|
    ensures forall i :: 0 <= i < |props| ==> elements[i] == RenderProperty(props[i])
  {
    seq(|props|, i requires 0 <= i < |props| => RenderProperty(props[i]))
  }

  /** `generateEpisodeCatalogXML(data)`: one `terms:<key>` child per key of
      the metadata object, in order. */
  function Catalog(d: EventData): (catalog: Element)
    ensures catalog.name == "dublincore"
    ensures |catalog.children| == |CatalogKeys|
    ensures catalog.attributes == [
      Attribute("xmlns", CatalogNamespace),
      Attribute("xmlns:terms", TermsNamespace),
      Attribute("xmlns:xsi", XsiNamespace)
    ]
    ensures forall i :: 0 <= i < |CatalogKeys| ==> catalog.children[i].name == "terms:" + CatalogKeys[i]
    ensures forall i :: 0 <= i < |catalog.children| ==> catalog.children[i].children == []
    ensures forall i :: 0 <= i < |catalog.children| && i != 1 ==> catalog.children[i].attributes == []
  {
    var props := MetadataObject(d);
    NoExtentKeys();
    Element("dublincore", [
        Attribute("xmlns", CatalogNamespace),
        Attribute("xmlns:terms", TermsNamespace),
        Attribute("xmlns:xsi", XsiNamespace)
      ], "", RenderAll(props))
  }

  /** The text of the first `terms:<key>` child of a catalog. */
  function TermText(catalog: Element, key: string): Option<string> {
    match ChildNamed(catalog, "terms:" + key)
    case None => None
    case Some(e) => Some(e.text)
  }

  /** The `extent`, `duration` and `startDate` branches of the switch are
      never taken for an event's metadata object. */
  lemma NoExtentKeys()
    ensures forall i :: 0 <= i < |CatalogKeys| ==>
      CatalogKeys[i] != "duration" && CatalogKeys[i] != "extent" && CatalogKeys[i] != "startDate"
  {
  }

  lemma KeysDistinct()
    ensures forall i, j :: 0 <= i < j < |CatalogKeys| ==> CatalogKeys[i] != CatalogKeys[j]
  {
  }

  lemma PrefixCancel(p: string, a: string, b: string)
    requires p + a == p + b
    ensures a == b
  {
    assert a == (p + a)[|p|..];
    assert b == (p + b)[|p|..];
  }

  /** Each key's element is the first child with that name. */
  lemma TermAt(d: EventData, i: int)
    requires 0 <= i < |CatalogKeys|
    ensures ChildNamed(Catalog(d), "terms:" + CatalogKeys[i]) == Some(Catalog(d).children[i])
  {
    var children := Catalog(d).children;
    var name := "terms:" + CatalogKeys[i];
    KeysDistinct();
    forall j | 0 <= j < i
      ensures children[j].name != name
    {
      if children[j].name == name {
        PrefixCancel("terms:", CatalogKeys[j], CatalogKeys[i]);
      }
    }
    ChildAt(children, name, i);
  }

  /** The entries of the period object, written out. */
  lemma PeriodEntriesText(start: Instant, end: Instant)
    ensures EntriesText([Entry("start", Moment(start)), Entry("end", Moment(end)), Entry("scheme", Plain("W3C-DTF"))])
      == Pair("start", start.iso) + Pair("end", end.iso) + Pair("scheme", "W3C-DTF")
  {
    var entries := [Entry("start", Moment(start)), Entry("end", Moment(end)), Entry("scheme", Plain("W3C-DTF"))];
    assert entries[1..][1..][1..] == [];
    assert EntriesText(entries[1..][1..]) == Pair("scheme", "W3C-DTF");
    assert EntriesText(entries[1..]) == Pair("end", end.iso) + Pair("scheme", "W3C-DTF");
  }

  /** The period renders as one `terms:temporal` of type `terms:Period`
      whose text lists start, end and scheme, each followed by `; `. */
  lemma CatalogTemporal(d: EventData)
    ensures Catalog(d).children[1] == Element("terms:temporal", [Attribute("xsi:type", "terms:Period")],
      Pair("start", d.started.iso) + Pair("end", d.ended.iso) + Pair("scheme", "W3C-DTF"), [])
  {
    var p := MetadataObject(d)[1];
    assert Catalog(d).children[1] == RenderProperty(p);
    PeriodEntriesText(d.started, d.ended);
  }

  /** The text found under key `i` is the text the switch rendered for it. */
  lemma TermTextAt(d: EventData, i: int)
    requires 0 <= i < |CatalogKeys|
    ensures TermText(Catalog(d), CatalogKeys[i]) == Some(RenderProperty(MetadataObject(d)[i]).text)
  {
    TermAt(d, i);
  }

  // One look-up per lemma keeps each proof small.

  lemma ReadBackCreated(d: EventData)
    ensures TermText(Catalog(d), "created") == Some(d.started.iso)
  {
    assert MetadataObject(d)[0] == Property("created", Date(d.started));
    TermTextAt(d, 0);
  }

  lemma ReadBackIsPartOf(d: EventData)
    ensures TermText(Catalog(d), "isPartOf") == Some(d.seriesId)
  {
    assert MetadataObject(d)[2] == Property("isPartOf", Str(d.seriesId));
    TermTextAt(d, 2);
  }

  lemma ReadBackLanguage(d: EventData)
    ensures TermText(Catalog(d), "language") == Some(d.lang)
  {
    assert MetadataObject(d)[3] == Property("language", Str(d.lang));
    TermTextAt(d, 3);
  }

  lemma ReadBackSpatial(d: EventData)
    ensures TermText(Catalog(d), "spatial") == Some(d.location)
  {
    assert MetadataObject(d)[4] == Property("spatial", Str(d.location));
    TermTextAt(d, 4);
  }

  lemma ReadBackTitle(d: EventData)
    ensures TermText(Catalog(d), "title") == Some(d.title)
  {
    assert MetadataObject(d)[5] == Property("title", Str(d.title));
    TermTextAt(d, 5);
  }

  lemma ReadBackDescription(d: EventData)
    ensures TermText(Catalog(d), "description") == Some(d.description)
  {
    assert MetadataObject(d)[7] == Property("description", Str(d.description));
    TermTextAt(d, 7);
  }

  lemma ReadBackRightsHolder(d: EventData)
    ensures TermText(Catalog(d), "rightsHolder") == Some(d.rights)
  {
    assert MetadataObject(d)[11] == Property("rightsHolder", Str(d.rights));
    TermTextAt(d, 11);
  }

  lemma ReadBackLicense(d: EventData)
    ensures TermText(Catalog(d), "license") == Some(d.license)
  {
    assert MetadataObject(d)[12] == Property("license", Str(d.license));
    TermTextAt(d, 12);
  }

  lemma ReadBackSubjects(d: EventData)
    ensures TermText(Catalog(d), "subjects") == Some(Join(d.subjects, ','))
  {
    assert MetadataObject(d)[6] == Property("subjects", Strs(d.subjects));
    TermTextAt(d, 6);
  }

  lemma ReadBackPublishers(d: EventData)
    ensures TermText(Catalog(d), "publishers") == Some(Join(d.publishers, ','))
  {
    assert MetadataObject(d)[8] == Property("publishers", Strs(d.publishers));
    TermTextAt(d, 8);
  }

  lemma ReadBackCreators(d: EventData)
    ensures TermText(Catalog(d), "creators") == Some(Join(d.creators, ','))
  {
    assert MetadataObject(d)[9] == Property("creators", Strs(d.creators));
    TermTextAt(d, 9);
  }

  lemma ReadBackContributors(d: EventData)
    ensures TermText(Catalog(d), "contributors") == Some(Join(d.contributors, ','))
  {
    assert MetadataObject(d)[10] == Property("contributors", Strs(d.contributors));
    TermTextAt(d, 10);
  }

  /** Reading the catalog back by element name gives the event's string
      fields verbatim and the creation date in ISO form. */
  lemma CatalogScalarsReadBack(d: EventData)
    ensures TermText(Catalog(d), "created") == Some(d.started.iso)
    ensures TermText(Catalog(d), "isPartOf") == Some(d.seriesId)
    ensures TermText(Catalog(d), "language") == Some(d.lang)
    ensures TermText(Catalog(d), "spatial") == Some(d.location)
    ensures TermText(Catalog(d), "title") == Some(d.title)
    ensures TermText(Catalog(d), "description") == Some(d.description)
    ensures TermText(Catalog(d), "rightsHolder") == Some(d.rights)
    ensures TermText(Catalog(d), "license") == Some(d.license)
  {
    ReadBackCreated(d);
    ReadBackIsPartOf(d);
    ReadBackLanguage(d);
    ReadBackSpatial(d);
    ReadBackTitle(d);
    ReadBackDescription(d);
    ReadBackRightsHolder(d);
    ReadBackLicense(d);
  }

  /** List fields read back as their items joined by `,` without spaces. */
  lemma CatalogListsReadBack(d: EventData)
    ensures TermText(Catalog(d), "subjects") == Some(Join(d.subjects, ','))
    ensures TermText(Catalog(d), "publishers") == Some(Join(d.publishers, ','))
    ensures TermText(Catalog(d), "creators") == Some(Join(d.creators, ','))
    ensures TermText(Catalog(d), "contributors") == Some(Join(d.contributors, ','))
  {
    ReadBackSubjects(d);
    ReadBackPublishers(d);
    ReadBackCreators(d);
    ReadBackContributors(d);
  }

  /** A list field is recovered by splitting its element's text on `,`,
      provided it is non-empty and no item contains a comma. */
  lemma CatalogListsRoundTrip(d: EventData)
    ensures |d.subjects| > 0 && FreeOf(d.subjects, ',') ==>
      TermText(Catalog(d), "subjects").Some? && Split(TermText(Catalog(d), "subjects").value, ',') == d.subjects
    ensures |d.publishers| > 0 && FreeOf(d.publishers, ',') ==>
      TermText(Catalog(d), "publishers").Some? && Split(TermText(Catalog(d), "publishers").value, ',') == d.publishers
    ensures |d.creators| > 0 && FreeOf(d.creators, ',') ==>
      TermText(Catalog(d), "creators").Some? && Split(TermText(Catalog(d), "creators").value, ',') == d.creators
    ensures |d.contributors| > 0 && FreeOf(d.contributors, ',') ==>
      TermText(Catalog(d), "contributors").Some? && Split(TermText(Catalog(d), "contributors").value, ',') == d.contributors
  {
    CatalogListsReadBack(d);
    if |d.subjects| > 0 && FreeOf(d.subjects, ',') { SplitJoin(d.subjects, ','); }
    if |d.publishers| > 0 && FreeOf(d.publishers, ',') { SplitJoin(d.publishers, ','); }
    if |d.creators| > 0 && FreeOf(d.creators, ',') { SplitJoin(d.creators, ','); }
    if |d.contributors| > 0 && FreeOf(d.contributors, ',') { SplitJoin(d.contributors, ','); }
  }
}
