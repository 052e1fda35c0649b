/** The operations of EventFieldSection: per-section field lists and the list
    of every field. The External section's enum is not part of this model, so
    its constants are supplied by the caller as an opaque sequence. */
module EventFieldSections {
  import opened EventSection
  import Tables
  import Img = ImageEventFields
  import Lst = ImageListEventFields

  /** A constant of the External section's enum, known only through the
      accessors every event field has. */
  datatype ExternalEventField = ExternalEventField(name: string, jsonField: string)

  /** A field of any section (the IEventField interface). */
  datatype EventField =
    | ExternalEvent(external: ExternalEventField)
    | ImageListEvent(imageList: Lst.ImageListEventField)
    | ImageEvent(image: Img.ImageEventField)

  function Name(f: EventField): string
  {
    match f
    case ExternalEvent(e) => e.name
    case ImageListEvent(l) => Lst.Name(l)
    case ImageEvent(i) => Img.Name(i)
  }

  function Section(f: EventField): EventFieldSection
  {
    match f
    case ExternalEvent(_) => External
    case ImageListEvent(l) => Lst.Section(l)
    case ImageEvent(i) => Img.Section(i)
  }

  function JsonField(f: EventField): string
  {
    match f
    case ExternalEvent(e) => e.jsonField
    case ImageListEvent(l) => Lst.JsonField(l)
    case ImageEvent(i) => Img.JsonField(i)
  }

  /** getFields: the values() of the section's field enum in declaration
      order; `external` stands for the External enum's values(). For the
      ImageList and Image sections a field is listed exactly when it belongs
      to the section, at its ordinal. */
  function GetFields(s: EventFieldSection, external: seq<ExternalEventField>): (fields: seq<EventField>)
    ensures |fields| == match s case External => |external| case ImageList => 1 case Image => 13
    ensures forall i | 0 <= i < |fields| :: Section(fields[i]) == s
    ensures s == External ==> forall i | 0 <= i < |fields| :: fields[i] == ExternalEvent(external[i])
    ensures s == ImageList ==> forall l :: fields[Lst.Ordinal(l)] == ImageListEvent(l)
    ensures s == Image ==> forall m :: Img.Ordinal(m) < |fields| && fields[Img.Ordinal(m)] == ImageEvent(m)
    ensures s == Image ==> forall i | 0 <= i < |fields| :: fields[i] == ImageEvent(Img.Values[i])
    ensures s != External ==> forall f :: f in fields <==> Section(f) == s
  {
    match s
    case External =>
      seq(|external|, i requires 0 <= i < |external| => ExternalEvent(external[i]))
    case ImageList =>
      Lst.ValuesEnumerateAll();
      var fields := seq(|Lst.Values|, i requires 0 <= i < |Lst.Values| => ImageListEvent(Lst.Values[i]));
      assert forall l :: fields[Lst.Ordinal(l)] == ImageListEvent(l);
      fields
    case Image =>
      Img.ValuesEnumerateAll();
      var fields := seq(|Img.Values|, i requires 0 <= i < |Img.Values| => ImageEvent(Img.Values[i]));
      assert forall m :: fields[Img.Ordinal(m)] == ImageEvent(m);
      fields
  }

  /** getJsonFieldNames: each listed field's JSON field, in the same order. */
  function GetJsonFieldNames(s: EventFieldSection, external: seq<ExternalEventField>): (names: seq<string>)
    ensures |names| == |GetFields(s, external)|
    ensures forall i | 0 <= i < |names| :: names[i] == JsonField(GetFields(s, external)[i])
  {
    Tables.KeysInOrder(GetFields(s, external), JsonField)
  }

  /** allFields: the External fields as given, then the ImageList field, then
      the Image fields in declaration order. */
  function AllFields(external: seq<ExternalEventField>): (all: seq<EventField>)
    ensures |all| == |external| + 14
    ensures forall i | 0 <= i < |all| :: Section(all[i]) ==
              if i < |external| then External else if i == |external| then ImageList else Image
    ensures forall i | 0 <= i < |external| :: all[i] == ExternalEvent(external[i])
    ensures all[|external|] == ImageListEvent(Lst.IlDcIdentifier)
    ensures forall i | |external| < i < |all| :: all[i] == ImageEvent(Img.Values[i - |external| - 1])
    ensures forall f | Section(f) != External :: f in all
  {
    AllFieldsLayout(external);
    GetFields(External, external) + GetFields(ImageList, external) + GetFields(Image, external)
  }

  /** Where each block of the concatenation lands. */
  lemma AllFieldsLayout(external: seq<ExternalEventField>)
    ensures var all := GetFields(External, external) + GetFields(ImageList, external) + GetFields(Image, external);
            && |all| == |external| + 14
            && (forall i | 0 <= i < |external| :: all[i] == ExternalEvent(external[i]))
            && all[|external|] == ImageListEvent(Lst.IlDcIdentifier)
            && (forall i | |external| < i < |all| :: all[i] == ImageEvent(Img.Values[i - |external| - 1]))
  {
    var ext := GetFields(External, external);
    var lst := GetFields(ImageList, external);
    var img := GetFields(Image, external);
    var all := ext + lst + img;
    assert lst[Lst.Ordinal(Lst.IlDcIdentifier)] == ImageListEvent(Lst.IlDcIdentifier);
    assert forall i | |ext| < i < |all| :: all[i] == img[i - |ext| - 1];
  }

  /** The ImageList list is the one image-list field; the Image list's JSON
      fields are distinct, non-empty and exactly the known ones. */
  lemma SectionContents(external: seq<ExternalEventField>)
    ensures GetFields(ImageList, external) == [ImageListEvent(Lst.IlDcIdentifier)]
    ensures GetJsonFieldNames(ImageList, external) == ["dc:identifier"]
    ensures Tables.Distinct(GetJsonFieldNames(Image, external))
    ensures forall i | 0 <= i < |GetJsonFieldNames(Image, external)| ::
              GetJsonFieldNames(Image, external)[i] != "" &&
              GetJsonFieldNames(Image, external)[i] in Img.KnownJsonFields
  {
    var fields := GetFields(Image, external);
    var names := GetJsonFieldNames(Image, external);
    Img.JsonFieldsDistinct();
    Img.KnownJsonFieldsAreTheFields();
    assert GetFields(ImageList, external)[0] == ImageListEvent(Lst.IlDcIdentifier);
    forall i, j | 0 <= i < j < |names|
      ensures names[i] != names[j]
    {
      Img.JsonFieldInjective(fields[i].image, fields[j].image);
      Img.ValuesEnumerateAll();
      assert fields[i] == ImageEvent(Img.Values[i]) && fields[j] == ImageEvent(Img.Values[j]);
    }
  }
}
