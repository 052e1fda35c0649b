/** Image-level fields of the environment scheme: each constant's name is an
    environment-variable name and carries the image-list JSON attribute the
    value is read from. */
module ImageEnvFields {
  import opened Wrappers
  import opened FieldErrors
  import opened EnvCategory
  import Tables

  datatype ImageEnvField =
    | DcDescription | DcIdentifier | DcTitle
    | HvHypervisor | HvSize | HvUri | HvVersion | HvFormat
    | SlChecksumSha512 | SlComments | SlOs | SlArch | SlOsVersion | SlOsName
    | AdGroup | AdMpUri | AdUserFullName | AdUserGuid | AdUserUri

  /** values(): the constants in declaration order. */
  const Values: seq<ImageEnvField> := [
    DcDescription, DcIdentifier, DcTitle,
    HvHypervisor, HvSize, HvUri, HvVersion, HvFormat,
    SlChecksumSha512, SlComments, SlOs, SlArch, SlOsVersion, SlOsName,
    AdGroup, AdMpUri, AdUserFullName, AdUserGuid, AdUserUri
  ]

  /** ordinal(): position in declaration order. */
  function Ordinal(f: ImageEnvField): nat
  {
    match f
    case DcDescription => 0      case DcIdentifier => 1      case DcTitle => 2
    case HvHypervisor => 3       case HvSize => 4            case HvUri => 5
    case HvVersion => 6          case HvFormat => 7          case SlChecksumSha512 => 8
    case SlComments => 9         case SlOs => 10             case SlArch => 11
    case SlOsVersion => 12       case SlOsName => 13         case AdGroup => 14
    case AdMpUri => 15           case AdUserFullName => 16   case AdUserGuid => 17
    case AdUserUri => 18
  }

  /** name(): the constant's identifier, exported as an environment variable. */
  function Name(f: ImageEnvField): string
  {
    match f
    case DcDescription => "VMCATCHER_EVENT_DC_DESCRIPTION"
    case DcIdentifier => "VMCATCHER_EVENT_DC_IDENTIFIER"
    case DcTitle => "VMCATCHER_EVENT_DC_TITLE"
    case HvHypervisor => "VMCATCHER_EVENT_HV_HYPERVISOR"
    case HvSize => "VMCATCHER_EVENT_HV_SIZE"
    case HvUri => "VMCATCHER_EVENT_HV_URI"
    case HvVersion => "VMCATCHER_EVENT_HV_VERSION"
    case HvFormat => "VMCATCHER_EVENT_HV_FORMAT"
    case SlChecksumSha512 => "VMCATCHER_EVENT_SL_CHECKSUM_SHA512"
    case SlComments => "VMCATCHER_EVENT_SL_COMMENTS"
    case SlOs => "VMCATCHER_EVENT_SL_OS"
    case SlArch => "VMCATCHER_EVENT_SL_ARCH"
    case SlOsVersion => "VMCATCHER_EVENT_SL_OSVERSION"
    case SlOsName => "VMCATCHER_EVENT_SL_OSNAME"
    case AdGroup => "VMCATCHER_EVENT_AD_GROUP"
    case AdMpUri => "VMCATCHER_EVENT_AD_MPURI"
    case AdUserFullName => "VMCATCHER_EVENT_AD_USER_FULLNAME"
    case AdUserGuid => "VMCATCHER_EVENT_AD_USER_GUID"
    case AdUserUri => "VMCATCHER_EVENT_AD_USER_URI"
  }

  /** imageListJsonAttribute(): the constructor argument, unchanged. */
  function ImageListJsonAttribute(f: ImageEnvField): string
  {
    match f
    case DcDescription => "dc:description"
    case DcIdentifier => "dc:identifier"
    case DcTitle => "dc:title"
    case HvHypervisor => "hv:hypervisor"
    case HvSize => "hv:size"
    case HvUri => "hv:uri"
    case HvVersion => "hv:version"
    case HvFormat => "hv:format"
    case SlChecksumSha512 => "sl:checksum:sha512"
    case SlComments => "sl:comments"
    case SlOs => "sl:os"
    case SlArch => "sl:arch"
    case SlOsVersion => "sl:osversion"
    case SlOsName => "sl:osname"
    case AdGroup => "ad:group"
    case AdMpUri => "ad:mpuri"
    case AdUserFullName => "ad:user:fullname"
    case AdUserGuid => "ad:user:guid"
    case AdUserUri => "ad:user:uri"
  }

  /** section(): every constant belongs to the Image category. */
  function Section(f: ImageEnvField): EnvFieldCategory
  {
    Image
  }

  /** The image-level attributes an upstream manifest may carry, written out
      as the reference the reverse map is checked against. */
  const KnownAttributes: set<string> := {
    "dc:description", "dc:identifier", "dc:title",
    "hv:hypervisor", "hv:size", "hv:uri", "hv:version", "hv:format",
    "sl:checksum:sha512", "sl:comments", "sl:os", "sl:arch", "sl:osversion", "sl:osname",
    "ad:group", "ad:mpuri", "ad:user:fullname", "ad:user:guid", "ad:user:uri"
  }

  /** The static reverse map, filled from values() in order. */
  const ReverseMap: map<string, ImageEnvField> := Tables.Build(Values, ImageListJsonAttribute)

  /** values() lists every constant exactly once, at its ordinal. */
  lemma ValuesEnumerateAll()
    ensures |Values| == 19
    ensures forall f :: Ordinal(f) < |Values| && Values[Ordinal(f)] == f
    ensures forall i | 0 <= i < |Values| :: Ordinal(Values[i]) == i
  {
  }

  /** Each constant sits in values() at its ordinal. */
  lemma InValues(f: ImageEnvField)
    ensures Ordinal(f) < |Values| && Values[Ordinal(f)] == f
  {
    ValuesEnumerateAll();
  }

  /** Distinct constants have distinct names and distinct attributes, and no
      attribute is empty. */
  lemma NamesAndAttributesDistinct()
    ensures Tables.DistinctKeys(Values, Name)
    ensures Tables.DistinctKeys(Values, ImageListJsonAttribute)
    ensures forall f :: ImageListJsonAttribute(f) != ""
  {
    ValuesEnumerateAll();
    forall i, j | 0 <= i < j < |Values|
      ensures Name(Values[i]) != Name(Values[j])
      ensures ImageListJsonAttribute(Values[i]) != ImageListJsonAttribute(Values[j])
    {
      AttributeInjective(Values[i], Values[j]);
      NameInjective(Values[i], Values[j]);
    }
  }

  lemma AttributeInjective(f: ImageEnvField, g: ImageEnvField)
    ensures ImageListJsonAttribute(f) == ImageListJsonAttribute(g) ==> f == g
  {
  }

  lemma NameInjective(f: ImageEnvField, g: ImageEnvField)
    ensures Name(f) == Name(g) ==> f == g
  {
  }

  /** Every attribute is namespaced: it starts with one of the four prefixes
      dc:, hv:, sl:, ad: and has something after the prefix. */
  lemma AttributeNamespaces()
    ensures forall f :: InNamespace(ImageListJsonAttribute(f))
  {
    forall f ensures InNamespace(ImageListJsonAttribute(f)) {
      AttributeNamespace(f);
    }
  }

  /** A non-empty attribute in one of the four prefixed namespaces. */
  predicate InNamespace(a: string)
  {
    |a| > 3 && a[..3] in {"dc:", "hv:", "sl:", "ad:"}
  }

  lemma AttributeNamespace(f: ImageEnvField)
    ensures InNamespace(ImageListJsonAttribute(f))
  {
    var a := ImageListJsonAttribute(f);
    assert a[..3] == [a[0], a[1], a[2]];
  }

  /** Every constant's name and attribute is a key of the corresponding table. */
  lemma KeysCoverAll()
    ensures forall f :: Name(f) in Tables.KeySet(Values, Name)
    ensures forall f :: ImageListJsonAttribute(f) in Tables.KeySet(Values, ImageListJsonAttribute)
  {
    forall f
      ensures Name(f) in Tables.KeySet(Values, Name)
      ensures ImageListJsonAttribute(f) in Tables.KeySet(Values, ImageListJsonAttribute)
    {
      InValues(f);
    }
  }

  /** The written-out attribute set is exactly the set of the constants'
      attributes. */
  lemma KnownAttributesAreTheAttributes()
    ensures forall f :: ImageListJsonAttribute(f) in KnownAttributes
    ensures forall a | a in KnownAttributes :: exists f :: ImageListJsonAttribute(f) == a
  {
    var attrs := {
      ImageListJsonAttribute(DcDescription), ImageListJsonAttribute(DcIdentifier),
      ImageListJsonAttribute(DcTitle), ImageListJsonAttribute(HvHypervisor),
      ImageListJsonAttribute(HvSize), ImageListJsonAttribute(HvUri),
      ImageListJsonAttribute(HvVersion), ImageListJsonAttribute(HvFormat),
      ImageListJsonAttribute(SlChecksumSha512), ImageListJsonAttribute(SlComments),
      ImageListJsonAttribute(SlOs), ImageListJsonAttribute(SlArch),
      ImageListJsonAttribute(SlOsVersion), ImageListJsonAttribute(SlOsName),
      ImageListJsonAttribute(AdGroup), ImageListJsonAttribute(AdMpUri),
      ImageListJsonAttribute(AdUserFullName), ImageListJsonAttribute(AdUserGuid),
      ImageListJsonAttribute(AdUserUri)
    };
    assert attrs == KnownAttributes;
  }

  /** The reverse map's keys are exactly the known attributes. */
  lemma ReverseMapKeys()
    ensures ReverseMap.Keys == KnownAttributes
  {
    var keys := Tables.KeySet(Values, ImageListJsonAttribute);
    assert ReverseMap.Keys == keys;
    KeysAreKnown();
    KnownAreKeys();
  }

  lemma KeysAreKnown()
    ensures forall a | a in Tables.KeySet(Values, ImageListJsonAttribute) :: a in KnownAttributes
  {
    KnownAttributesAreTheAttributes();
  }

  lemma KnownAreKeys()
    ensures forall a | a in KnownAttributes :: a in Tables.KeySet(Values, ImageListJsonAttribute)
  {
    KeysCoverAll();
    KnownAttributesAreTheAttributes();
  }

  /** The reverse map has one entry per constant: although the fold lets a
      later constant overwrite an earlier one, no two constants collide. */
  lemma ReverseMapHasEveryField()
    ensures |ReverseMap| == 19
    ensures forall f :: ImageListJsonAttribute(f) in ReverseMap &&
                        ReverseMap[ImageListJsonAttribute(f)] == f
  {
    NamesAndAttributesDistinct();
    Tables.BuildDistinct(Values, ImageListJsonAttribute);
    forall f
      ensures ImageListJsonAttribute(f) in ReverseMap && ReverseMap[ImageListJsonAttribute(f)] == f
    {
      InValues(f);
    }
  }

  /** ofImageListJsonAttribute: the constant whose attribute is `jsonAttribute`,
      or an IllegalArgumentException when there is none. */
  function OfImageListJsonAttribute(jsonAttribute: string): (r: Result<ImageEnvField, FieldError>)
    ensures r.Success? ==> ImageListJsonAttribute(r.value) == jsonAttribute
    ensures forall f | ImageListJsonAttribute(f) == jsonAttribute :: r == Success(f)
    ensures r.Success? <==> jsonAttribute in KnownAttributes
    ensures r.Failure? ==> r.error == UnknownJsonAttribute(jsonAttribute)
  {
    ReverseMapKeys();
    ReverseMapHasEveryField();
    match Tables.HashMapGet(ReverseMap, jsonAttribute)
    case Some(f) => Success(f)
    case None => Failure(UnknownJsonAttribute(jsonAttribute))
  }

  /** The name-to-constant map Enum.valueOf consults, filled from values()
      in order like the reverse map. */
  const ConstantDirectory: map<string, ImageEnvField> := Tables.Build(Values, Name)

  /** No two constants share a name, so the directory holds every constant
      under its own name. */
  lemma ConstantDirectoryHasEveryField()
    ensures forall f :: Name(f) in ConstantDirectory && ConstantDirectory[Name(f)] == f
  {
    NamesAndAttributesDistinct();
    Tables.BuildDistinct(Values, Name);
    forall f
      ensures Name(f) in ConstantDirectory && ConstantDirectory[Name(f)] == f
    {
      InValues(f);
    }
  }

  /** Enum.valueOf: the constant called `name`, or an IllegalArgumentException
      when there is none. */
  function ValueOf(name: string): (r: Result<ImageEnvField, FieldError>)
    ensures r.Success? ==> Name(r.value) == name
    ensures forall f | Name(f) == name :: r == Success(f)
    ensures r.Failure? ==> r.error == NoEnumConstant("ImageEnvField", name)
  {
    ConstantDirectoryHasEveryField();
    match Tables.HashMapGet(ConstantDirectory, name)
    case Some(f) => Success(f)
    case None => Failure(NoEnumConstant("ImageEnvField", name))
  }

  /** Reading a constant's attribute and looking it up again gives the
      constant back. */
  lemma AttributeRoundTrip(f: ImageEnvField)
    ensures OfImageListJsonAttribute(ImageListJsonAttribute(f)) == Success(f)
  {
  }

  /** Resolving a constant's name gives the constant back. */
  lemma NameRoundTrip(f: ImageEnvField)
    ensures ValueOf(Name(f)) == Success(f)
  {
  }

  /** valueOf agrees with scanning values() for the first constant with the
      name, and fails exactly when the scan finds none. */
  lemma ValueOfAgreesWithSearch(name: string)
    ensures ValueOf(name) ==
              match Tables.FirstWith(Values, Name, name)
              case Some(i) => Success(Values[i])
              case None => Failure(NoEnumConstant("ImageEnvField", name))
  {
    NamesAndAttributesDistinct();
    Tables.BuildAgreesWithSearch(Values, Name, name);
  }

  /** ofImageListJsonAttribute agrees with scanning values() for the first
      constant with the attribute. */
  lemma OfAttributeAgreesWithSearch(jsonAttribute: string)
    ensures OfImageListJsonAttribute(jsonAttribute) ==
              match Tables.FirstWith(Values, ImageListJsonAttribute, jsonAttribute)
              case Some(i) => Success(Values[i])
              case None => Failure(UnknownJsonAttribute(jsonAttribute))
  {
    NamesAndAttributesDistinct();
    Tables.BuildAgreesWithSearch(Values, ImageListJsonAttribute, jsonAttribute);
  }
}
