/** Image-level fields of the event (JSON) scheme: the environment scheme's
    image fields minus the six whose declarations are commented out. */
module ImageEventFields {
  import opened Wrappers
  import opened EventSection
  import Tables

  datatype ImageEventField =
    | DcDescription | DcIdentifier | DcTitle
    | HvHypervisor | HvSize | HvUri | HvVersion | HvFormat
    | SlOs | SlArch | SlOsVersion | SlOsName
    | AdMpUri

  /** values(): the constants in declaration order. */
  const Values: seq<ImageEventField> := [
    DcDescription, DcIdentifier, DcTitle,
    HvHypervisor, HvSize, HvUri, HvVersion, HvFormat,
    SlOs, SlArch, SlOsVersion, SlOsName,
    AdMpUri
  ]

  /** ordinal(): position in declaration order. */
  function Ordinal(f: ImageEventField): nat
  {
    match f
    case DcDescription => 0   case DcIdentifier => 1   case DcTitle => 2
    case HvHypervisor => 3    case HvSize => 4         case HvUri => 5
    case HvVersion => 6       case HvFormat => 7       case SlOs => 8
    case SlArch => 9          case SlOsVersion => 10   case SlOsName => 11
    case AdMpUri => 12
  }

  /** name(): the constant's identifier. */
  function Name(f: ImageEventField): string
  {
    match f
    case DcDescription => "VMCATCHER_EVENT_DC_DESCRIPTION"
    case DcIdentifier => "VMCATCHER_EVENT_DC_IDENTIFIER"
    case DcTitle => "VMCATCHER_EVENT_DC_TITLE"
    case HvHypervisor => "VMCATCHER_EVENT_HV_HYPERVISOR"
    case HvSize => "VMCATCHER_EVENT_HV_SIZE"
    case HvUri => "VMCATCHER_EVENT_HV_URI"
    case HvVersion => "VMCATCHER_EVENT_HV_VERSION"
    case HvFormat => "VMCATCHER_EVENT_HV_FORMAT"
    case SlOs => "VMCATCHER_EVENT_SL_OS"
    case SlArch => "VMCATCHER_EVENT_SL_ARCH"
    case SlOsVersion => "VMCATCHER_EVENT_SL_OSVERSION"
    case SlOsName => "VMCATCHER_EVENT_SL_OSNAME"
    case AdMpUri => "VMCATCHER_EVENT_AD_MPURI"
  }

  /** jsonField(): the constructor argument, unchanged. */
  function JsonField(f: ImageEventField): string
  {
    match f
    case DcDescription => "dc:description"
    case DcIdentifier => "dc:identifier"
    case DcTitle => "dc:title"
    case HvHypervisor => "hv:hypervisor"
    case HvSize => "hv:size"
    case HvUri => "hv:uri"
    case HvVersion => "hv:version"
    case HvFormat => "hv:format"
    case SlOs => "sl:os"
    case SlArch => "sl:arch"
    case SlOsVersion => "sl:osversion"
    case SlOsName => "sl:osname"
    case AdMpUri => "ad:mpuri"
  }

  /** section(): every constant belongs to the Image section. */
  function Section(f: ImageEventField): EventFieldSection
  {
    Image
  }

  /** The JSON fields of an image event, written out as the reference the
      reverse map is checked against. */
  const KnownJsonFields: set<string> := {
    "dc:description", "dc:identifier", "dc:title",
    "hv:hypervisor", "hv:size", "hv:uri", "hv:version", "hv:format",
    "sl:os", "sl:arch", "sl:osversion", "sl:osname",
    "ad:mpuri"
  }

  /** The static reverse map, filled from values() in order. */
  const ReverseMap: map<string, ImageEventField> := Tables.Build(Values, JsonField)

  /** values() lists every constant exactly once, at its ordinal. */
  lemma ValuesEnumerateAll()
    ensures |Values| == 13
    ensures forall f :: Ordinal(f) < |Values| && Values[Ordinal(f)] == f
    ensures forall i | 0 <= i < |Values| :: Ordinal(Values[i]) == i
  {
  }

  lemma JsonFieldInjective(f: ImageEventField, g: ImageEventField)
    ensures JsonField(f) == JsonField(g) ==> f == g
  {
  }

  /** Distinct constants have distinct JSON fields, none of them empty. */
  lemma JsonFieldsDistinct()
    ensures Tables.DistinctKeys(Values, JsonField)
    ensures forall f :: JsonField(f) != ""
  {
    ValuesEnumerateAll();
    forall i, j | 0 <= i < j < |Values|
      ensures JsonField(Values[i]) != JsonField(Values[j])
    {
      JsonFieldInjective(Values[i], Values[j]);
    }
  }

  /** The written-out field set is exactly the set of the constants' fields. */
  lemma KnownJsonFieldsAreTheFields()
    ensures forall f :: JsonField(f) in KnownJsonFields
    ensures forall a | a in KnownJsonFields :: exists f :: JsonField(f) == a
  {
    var fields := {
      JsonField(DcDescription), JsonField(DcIdentifier), JsonField(DcTitle),
      JsonField(HvHypervisor), JsonField(HvSize), JsonField(HvUri),
      JsonField(HvVersion), JsonField(HvFormat), JsonField(SlOs),
      JsonField(SlArch), JsonField(SlOsVersion), JsonField(SlOsName),
      JsonField(AdMpUri)
    };
    assert fields == KnownJsonFields;
  }

  /** The reverse map has one entry per constant, under its JSON field. */
  lemma ReverseMapHasEveryField()
    ensures |ReverseMap| == 13
    ensures forall f :: JsonField(f) in ReverseMap && ReverseMap[JsonField(f)] == f
  {
    JsonFieldsDistinct();
    Tables.BuildDistinct(Values, JsonField);
    forall f
      ensures JsonField(f) in ReverseMap && ReverseMap[JsonField(f)] == f
    {
      ValuesEnumerateAll();
      assert Values[Ordinal(f)] == f;
    }
  }

  /** The reverse map's keys are exactly the known JSON fields. */
  lemma ReverseMapKeys()
    ensures ReverseMap.Keys == KnownJsonFields
  {
    KeysAreKnown();
    KnownAreKeys();
  }

  lemma KeysAreKnown()
    ensures forall a | a in ReverseMap :: a in KnownJsonFields
  {
    KnownJsonFieldsAreTheFields();
    forall a | a in ReverseMap
      ensures a in KnownJsonFields
    {
      assert JsonField(ReverseMap[a]) == a;
    }
  }

  lemma KnownAreKeys()
    ensures forall a | a in KnownJsonFields :: a in ReverseMap
  {
    ReverseMapHasEveryField();
    KnownJsonFieldsAreTheFields();
  }

  /** ofJsonField: the constant whose JSON field is `jsonField`, or None
      (Java's null) when there is none; it never throws. */
  function OfJsonField(jsonField: string): (r: Option<ImageEventField>)
    ensures r.Some? ==> JsonField(r.value) == jsonField
    ensures forall f | JsonField(f) == jsonField :: r == Some(f)
    ensures r.Some? <==> jsonField in KnownJsonFields
  {
    ReverseMapHasEveryField();
    ReverseMapKeys();
    Tables.HashMapGet(ReverseMap, jsonField)
  }

  /** nameForJsonField: the name of the constant whose JSON field is
      `jsonField`. Java dereferences the null of an unknown field and throws a
      NullPointerException; that case is None here. */
  function NameForJsonField(jsonField: string): (r: Option<string>)
    ensures forall f | JsonField(f) == jsonField :: r == Some(Name(f))
    ensures r.None? <==> forall f :: JsonField(f) != jsonField
  {
    match OfJsonField(jsonField)
    case Some(f) => Some(Name(f))
    case None => None
  }

  /** Reading a constant's JSON field and looking it up again gives the
      constant back. */
  lemma JsonFieldRoundTrip(f: ImageEventField)
    ensures OfJsonField(JsonField(f)) == Some(f)
    ensures NameForJsonField(JsonField(f)) == Some(Name(f))
  {
  }

  /** The commented-out SHA-512 checksum declaration is not part of the
      enum, so its JSON field is unknown. */
  lemma ChecksumFieldUnknown()
    ensures OfJsonField("sl:checksum:sha512") == None
    ensures NameForJsonField("sl:checksum:sha512") == None
  {
    assert "sl:checksum:sha512" !in KnownJsonFields;
  }

  /** The attributes of four more commented-out declarations (comments,
      group, user full name, user GUID), and the empty string, are unknown. */
  lemma CommentedOutFieldsUnknown(jsonField: string)
    requires jsonField in {"sl:comments", "ad:group", "ad:user:fullname", "ad:user:guid", ""}
    ensures OfJsonField(jsonField) == None
    ensures NameForJsonField(jsonField) == None
  {
    assert jsonField !in KnownJsonFields;
  }

  /** The commented-out user-URI declaration is written with the attribute
      "ad:mpuri", a copy of AD_MPURI's, not the environment scheme's
      "ad:user:uri". So its attribute is not unknown: it resolves to
      AD_MPURI. Uncommented, it would come later in values() and replace
      AD_MPURI in the reverse map. */
  lemma CommentedOutUserUriResolvesToMpUri()
    ensures OfJsonField("ad:mpuri") == Some(AdMpUri)
    ensures NameForJsonField("ad:mpuri") == Some("VMCATCHER_EVENT_AD_MPURI")
    ensures OfJsonField("ad:user:uri") == None
  {
    assert "ad:mpuri" == JsonField(AdMpUri);
    assert "ad:user:uri" !in KnownJsonFields;
  }

  /** Uncommenting the user-URI declaration appends it, as a (name, JSON
      field) pair, after the declarations of values(); the reverse-map fold
      then files it under "ad:mpuri" in place of AD_MPURI. */
  lemma UncommentedUserUriWouldShadowMpUri()
    ensures var decls := seq(|Values|, i requires 0 <= i < |Values| => (Name(Values[i]), JsonField(Values[i])))
                         + [("VMCATCHER_EVENT_AD_USER_URI", "ad:mpuri")];
            var m := Tables.Build(decls, (d: (string, string)) => d.1);
            "ad:mpuri" in m && m["ad:mpuri"].0 == "VMCATCHER_EVENT_AD_USER_URI" &&
            exists i | 0 <= i < |decls| - 1 :: decls[i].1 == "ad:mpuri"
  {
    var decls := seq(|Values|, i requires 0 <= i < |Values| => (Name(Values[i]), JsonField(Values[i])))
                 + [("VMCATCHER_EVENT_AD_USER_URI", "ad:mpuri")];
    var key := (d: (string, string)) => d.1;
    assert Tables.LastWithKey(decls, key, |decls| - 1);
    ValuesEnumerateAll();
    assert decls[Ordinal(AdMpUri)] == (Name(AdMpUri), JsonField(AdMpUri));
  }

  /** ofJsonField agrees with scanning values() for the first constant with
      the JSON field, and is null exactly when the scan finds none. */
  lemma OfJsonFieldAgreesWithSearch(jsonField: string)
    ensures OfJsonField(jsonField) ==
              match Tables.FirstWith(Values, JsonField, jsonField)
              case Some(i) => Some(Values[i])
              case None => None
  {
    JsonFieldsDistinct();
    Tables.BuildAgreesWithSearch(Values, JsonField, jsonField);
  }
}
