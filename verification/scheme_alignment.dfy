/** How the environment scheme and the event scheme line up. Every image and
    image-list event field is an environment field with the same name and the
    same attribute, in the same relative order. The environment scheme's image
    fields that the event scheme lacks are exactly its commented-out
    declarations. By name, one External environment field clashes with an
    image event field. */
module SchemeAlignment {
  import opened Wrappers
  import ImgEnv = ImageEnvFields
  import LstEnv = ImageListEnvFields
  import ImgEv = ImageEventFields
  import LstEv = ImageListEventFields
  import ExtEnv = ExternalEnvFields

  /** The environment field an image event field is declared after. */
  function EnvCounterpart(e: ImgEv.ImageEventField): ImgEnv.ImageEnvField
  {
    match e
    case DcDescription => ImgEnv.DcDescription
    case DcIdentifier => ImgEnv.DcIdentifier
    case DcTitle => ImgEnv.DcTitle
    case HvHypervisor => ImgEnv.HvHypervisor
    case HvSize => ImgEnv.HvSize
    case HvUri => ImgEnv.HvUri
    case HvVersion => ImgEnv.HvVersion
    case HvFormat => ImgEnv.HvFormat
    case SlOs => ImgEnv.SlOs
    case SlArch => ImgEnv.SlArch
    case SlOsVersion => ImgEnv.SlOsVersion
    case SlOsName => ImgEnv.SlOsName
    case AdMpUri => ImgEnv.AdMpUri
  }

  /** The image environment fields whose event declarations are commented out. */
  predicate EnvOnly(f: ImgEnv.ImageEnvField)
  {
    f in {ImgEnv.SlChecksumSha512, ImgEnv.SlComments, ImgEnv.AdGroup,
          ImgEnv.AdUserFullName, ImgEnv.AdUserGuid, ImgEnv.AdUserUri}
  }

  /** Every image event field has the same name and attribute as its
      environment counterpart. */
  lemma EventFieldsAreEnvFields(e: ImgEv.ImageEventField)
    ensures ImgEnv.Name(EnvCounterpart(e)) == ImgEv.Name(e)
    ensures ImgEnv.ImageListJsonAttribute(EnvCounterpart(e)) == ImgEv.JsonField(e)
    ensures !EnvOnly(EnvCounterpart(e))
  {
  }

  /** Wherever the two schemes declare the same image field name, they
      declare the same attribute for it. */
  lemma SharedNamesShareAttributes(e: ImgEv.ImageEventField, f: ImgEnv.ImageEnvField)
    requires ImgEv.Name(e) == ImgEnv.Name(f)
    ensures ImgEv.JsonField(e) == ImgEnv.ImageListJsonAttribute(f)
    ensures f == EnvCounterpart(e)
  {
    EventFieldsAreEnvFields(e);
    ImgEnv.NameInjective(f, EnvCounterpart(e));
  }

  /** An image environment field has an event counterpart exactly when its
      event declaration is not commented out. */
  lemma EventCounterpartExists(f: ImgEnv.ImageEnvField)
    ensures (exists e :: EnvCounterpart(e) == f) <==> !EnvOnly(f)
  {
    if !EnvOnly(f) {
      var e := match f
        case DcDescription => ImgEv.DcDescription
        case DcIdentifier => ImgEv.DcIdentifier
        case DcTitle => ImgEv.DcTitle
        case HvHypervisor => ImgEv.HvHypervisor
        case HvSize => ImgEv.HvSize
        case HvUri => ImgEv.HvUri
        case HvVersion => ImgEv.HvVersion
        case HvFormat => ImgEv.HvFormat
        case SlOs => ImgEv.SlOs
        case SlArch => ImgEv.SlArch
        case SlOsVersion => ImgEv.SlOsVersion
        case SlOsName => ImgEv.SlOsName
        case _ => ImgEv.AdMpUri;
      assert EnvCounterpart(e) == f;
    } else {
      forall e
        ensures EnvCounterpart(e) != f
      {
        EventFieldsAreEnvFields(e);
      }
    }
  }

  /** The event declarations follow the environment declarations' order. */
  lemma DeclarationOrderPreserved()
    ensures forall i | 0 <= i < |ImgEv.Values| - 1 ::
              ImgEnv.Ordinal(EnvCounterpart(ImgEv.Values[i])) <
              ImgEnv.Ordinal(EnvCounterpart(ImgEv.Values[i + 1]))
  {
  }

  /** An attribute the environment scheme knows but the event scheme does
      not: the SHA-512 checksum, whose event declaration is commented out. */
  lemma ChecksumOnlyInEnvScheme()
    ensures ImgEnv.OfImageListJsonAttribute("sl:checksum:sha512") == Success(ImgEnv.SlChecksumSha512)
    ensures ImgEv.OfJsonField("sl:checksum:sha512") == None
  {
    assert "sl:checksum:sha512" == ImgEnv.ImageListJsonAttribute(ImgEnv.SlChecksumSha512);
    ImgEv.ChecksumFieldUnknown();
  }

  /** Every attribute the event scheme resolves, the environment scheme
      resolves to the counterpart field. */
  lemma EventLookupImpliesEnvLookup(jsonField: string)
    ensures ImgEv.OfJsonField(jsonField).Some? ==>
              ImgEnv.OfImageListJsonAttribute(jsonField) ==
                Success(EnvCounterpart(ImgEv.OfJsonField(jsonField).value))
  {
    if ImgEv.OfJsonField(jsonField).Some? {
      EventFieldsAreEnvFields(ImgEv.OfJsonField(jsonField).value);
    }
  }

  /** The image-list field is declared alike in both schemes. */
  lemma ImageListFieldsAlign(e: LstEv.ImageListEventField, f: LstEnv.ImageListEnvField)
    ensures LstEv.Name(e) == LstEnv.Name(f)
    ensures LstEv.JsonField(e) == LstEnv.ImageListJsonAttribute(f)
    ensures LstEnv.ImageListJsonAttribute(f) == ImgEnv.ImageListJsonAttribute(ImgEnv.DcIdentifier)
  {
  }

  /** Alignment holds only for the Image and ImageList fields. The External
      environment field VMCATCHER_EVENT_AD_MPURI has the name of an image
      event field, but its attribute is "" where the event field's is
      "ad:mpuri". It is the only External name that any image event field
      uses. */
  lemma ExternalNameClashesWithEventField()
    ensures ExtEnv.Name(ExtEnv.AdMpUri) == ImgEv.Name(ImgEv.AdMpUri)
    ensures ExtEnv.ImageListJsonAttribute(ExtEnv.AdMpUri) != ImgEv.JsonField(ImgEv.AdMpUri)
    ensures forall x, e | ExtEnv.Name(x) == ImgEv.Name(e) :: x == ExtEnv.AdMpUri && e == ImgEv.AdMpUri
  {
  }
}
