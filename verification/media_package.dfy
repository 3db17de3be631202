/** Reading the media package identifier out of a manifest returned by the
    backend (`getMediaPackageId`). Parsing is xmlbuilder2's, passed in as
    `parse`: `None` when the text is not a well-formed document, otherwise
    the document's root element. */
module MediaPackage {
  import opened Wrappers
  import opened Xml

  /** The root element's `id` attribute, or "" when it is absent or empty;
      `None` when the manifest does not parse (the source throws). */
  function MediaPackageId(parse: string -> Option<Element>, manifest: string): (r: Option<string>)
    ensures r.None? <==> parse(manifest).None?
    ensures r.Some? ==> var attrs := parse(manifest).value.attributes;
      && (r.value != "" ==> exists i :: FirstAttributeNamed(attrs, "id", i) && attrs[i].value == r.value)
      && (r.value == "" ==> forall i :: FirstAttributeNamed(attrs, "id", i) ==> attrs[i].value == "")
  {
    match parse(manifest)
    case None => None
    case Some(root) =>
      var id := AttributeByName(root, "id");
      if id.Some? then
        var i :| FirstAttributeNamed(root.attributes, "id", i) && root.attributes[i].value == id.value;
        assert forall j :: FirstAttributeNamed(root.attributes, "id", j) ==> j == i;
        Some(id.value)
      else Some("")
  }

  /** A manifest whose root carries `id` first as `value` yields `value`. */
  lemma MediaPackageIdOf(parse: string -> Option<Element>, manifest: string, i: int)
    requires parse(manifest).Some?
    requires FirstAttributeNamed(parse(manifest).value.attributes, "id", i)
    ensures MediaPackageId(parse, manifest) == Some(parse(manifest).value.attributes[i].value)
  {
    AttributeAt(parse(manifest).value.attributes, "id", i);
  }
}
