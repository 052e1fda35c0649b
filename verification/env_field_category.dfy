/** The operations of EnvFieldCategory: per-category field lists, the list of
    every field, and the two cross-category lookups that search Image, then
    ImageList, then External. */
module EnvFieldCategories {
  import opened Wrappers
  import opened FieldErrors
  import opened EnvCategory
  import Tables
  import Img = ImageEnvFields
  import Lst = ImageListEnvFields
  import Ext = ExternalEnvFields

  /** A field of any category (the IEnvField interface). */
  datatype EnvField =
    | ExternalField(external: Ext.ExternalEnvField)
    | ImageListField(imageList: Lst.ImageListEnvField)
    | ImageField(image: Img.ImageEnvField)

  function Name(f: EnvField): string
  {
    match f
    case ExternalField(e) => Ext.Name(e)
    case ImageListField(l) => Lst.Name(l)
    case ImageField(i) => Img.Name(i)
  }

  function Section(f: EnvField): EnvFieldCategory
  {
    match f
    case ExternalField(e) => Ext.Section(e)
    case ImageListField(l) => Lst.Section(l)
    case ImageField(i) => Img.Section(i)
  }

  function ImageListJsonAttribute(f: EnvField): string
  {
    match f
    case ExternalField(e) => Ext.ImageListJsonAttribute(e)
    case ImageListField(l) => Lst.ImageListJsonAttribute(l)
    case ImageField(i) => Img.ImageListJsonAttribute(i)
  }

  /** Position of a field within its own enum's declaration order. */
  function Ordinal(f: EnvField): nat
  {
    match f
    case ExternalField(e) => Ext.Ordinal(e)
    case ImageListField(l) => Lst.Ordinal(l)
    case ImageField(i) => Img.Ordinal(i)
  }

  /** getFields: the values() of the category's field enum, in declaration
      order; a field is listed exactly when it belongs to the category. */
  function GetFields(c: EnvFieldCategory): (fields: seq<EnvField>)
    ensures |fields| == match c case External => 7 case ImageList => 1 case Image => 19
    ensures forall i | 0 <= i < |fields| :: Section(fields[i]) == c && Ordinal(fields[i]) == i
    ensures forall f :: f in fields <==> Section(f) == c
  {
    match c
    case External =>
      Ext.ValuesEnumerateAll();
      var fields := seq(|Ext.Values|, i requires 0 <= i < |Ext.Values| => ExternalField(Ext.Values[i]));
      assert forall e :: fields[Ext.Ordinal(e)] == ExternalField(e);
      fields
    case ImageList =>
      Lst.ValuesEnumerateAll();
      var fields := seq(|Lst.Values|, i requires 0 <= i < |Lst.Values| => ImageListField(Lst.Values[i]));
      assert forall l :: fields[Lst.Ordinal(l)] == ImageListField(l);
      fields
    case Image =>
      Img.ValuesEnumerateAll();
      var fields := seq(|Img.Values|, i requires 0 <= i < |Img.Values| => ImageField(Img.Values[i]));
      assert forall m :: fields[Img.Ordinal(m)] == ImageField(m);
      fields
  }

  /** getJsonFieldNames: each listed field's attribute, in the same order;
      for External every entry is "". */
  function GetJsonFieldNames(c: EnvFieldCategory): (names: seq<string>)
    ensures |names| == |GetFields(c)|
    ensures forall i | 0 <= i < |names| :: names[i] == ImageListJsonAttribute(GetFields(c)[i])
    ensures c == External ==> forall i | 0 <= i < |names| :: names[i] == ""
  {
    Tables.KeysInOrder(GetFields(c), ImageListJsonAttribute)
  }

  /** allFields: External, then ImageList, then Image fields. */
  function AllFields(): (all: seq<EnvField>)
    ensures |all| == 27
    ensures forall f :: f in all
    ensures Tables.Distinct(all)
    ensures forall i, j | 0 <= i < j < |all| ::
              CategoryOrdinal(Section(all[i])) <= CategoryOrdinal(Section(all[j]))
    ensures forall i, j | 0 <= i < j < |all| && Section(all[i]) == Section(all[j]) ::
              Ordinal(all[i]) < Ordinal(all[j])
  {
    var ext := GetFields(External);
    var lst := GetFields(ImageList);
    var img := GetFields(Image);
    var all := ext + lst + img;
    assert forall i | 0 <= i < |all| ::
      all[i] == (if i < 7 then ext[i] else if i < 8 then lst[i - 7] else img[i - 8]);
    assert forall i | 0 <= i < |all| ::
      && Section(all[i]) == (if i < 7 then External else if i < 8 then ImageList else Image)
      && Ordinal(all[i]) == (if i < 7 then i else if i < 8 then i - 7 else i - 8);
    all
  }

  /** imageListJsonAttributeOfEnvField: the attribute of the field called
      `envFieldName`, resolving the name as an Image field, else as the
      ImageList field, else as an External field (whose attribute is ""), and
      failing with Enum.valueOf's exception when no enum has that name. */
  function ImageListJsonAttributeOfEnvField(envFieldName: string): (r: Result<string, FieldError>)
    ensures forall f | Img.Name(f) == envFieldName ::
              r == Success(Img.ImageListJsonAttribute(f))
    ensures (forall f :: Img.Name(f) != envFieldName) ==>
              forall l | Lst.Name(l) == envFieldName :: r == Success(Lst.ImageListJsonAttribute(l))
    ensures (forall f :: Img.Name(f) != envFieldName) && (forall l :: Lst.Name(l) != envFieldName) ==>
              forall e | Ext.Name(e) == envFieldName :: r == Success("")
    ensures (forall f :: Img.Name(f) != envFieldName) &&
            (forall l :: Lst.Name(l) != envFieldName) &&
            (forall e :: Ext.Name(e) != envFieldName) ==>
              r == Failure(NoEnumConstant("ExternalEnvField", envFieldName))
  {
    match Img.ValueOf(envFieldName)
    case Success(f) => Success(Img.ImageListJsonAttribute(f))
    case Failure(_) =>
      match Lst.ValueOf(envFieldName)
      case Success(l) => Success(Lst.ImageListJsonAttribute(l))
      case Failure(_) =>
        match Ext.ValueOf(envFieldName)
        case Success(e) => Success(Ext.ImageListJsonAttribute(e))
        case Failure(err) => Failure(err)
  }

  /** envFieldOfImageListJsonAttribute: the Image field with attribute
      `jsonAttr`, else the ImageList field with that attribute, else the
      External field whose NAME (not attribute) is `jsonAttr`, else the
      exception of ExternalEnvField.valueOf. */
  function EnvFieldOfImageListJsonAttribute(jsonAttr: string): (r: Result<EnvField, FieldError>)
    ensures forall f | Img.ImageListJsonAttribute(f) == jsonAttr :: r == Success(ImageField(f))
    ensures (forall f :: Img.ImageListJsonAttribute(f) != jsonAttr) ==>
              forall l | Lst.ImageListJsonAttribute(l) == jsonAttr :: r == Success(ImageListField(l))
    ensures (forall f :: Img.ImageListJsonAttribute(f) != jsonAttr) &&
            (forall l :: Lst.ImageListJsonAttribute(l) != jsonAttr) ==>
              forall e | Ext.Name(e) == jsonAttr :: r == Success(ExternalField(e))
    ensures (forall f :: Img.ImageListJsonAttribute(f) != jsonAttr) &&
            (forall l :: Lst.ImageListJsonAttribute(l) != jsonAttr) &&
            (forall e :: Ext.Name(e) != jsonAttr) ==>
              r == Failure(NoEnumConstant("ExternalEnvField", jsonAttr))
  {
    match Img.OfImageListJsonAttribute(jsonAttr)
    case Success(f) => Success(ImageField(f))
    case Failure(_) =>
      match Lst.OfImageListJsonAttribute(jsonAttr)
      case Success(l) => Success(ImageListField(l))
      case Failure(_) =>
        match Ext.ValueOf(jsonAttr)
        case Success(e) => Success(ExternalField(e))
        case Failure(err) => Failure(err)
  }

  /** existsImageListJsonAttribute: whether envFieldOfImageListJsonAttribute
      succeeds, i.e. whether `jsonAttr` is an Image attribute or an External
      field's name. */
  function ExistsImageListJsonAttribute(jsonAttr: string): (b: bool)
    ensures b <==> jsonAttr in Img.KnownAttributes || exists e :: Ext.Name(e) == jsonAttr
  {
    Img.KnownAttributesAreTheAttributes();
    EnvFieldOfImageListJsonAttribute(jsonAttr).Success?
  }

  /** The ImageList list names only "dc:identifier"; the Image list names
      every known attribute once, none of them empty. */
  lemma JsonFieldNamesByCategory()
    ensures GetJsonFieldNames(ImageList) == ["dc:identifier"]
    ensures Tables.Distinct(GetJsonFieldNames(Image))
    ensures forall i | 0 <= i < |GetJsonFieldNames(Image)| ::
              GetJsonFieldNames(Image)[i] != "" &&
              GetJsonFieldNames(Image)[i] in Img.KnownAttributes
  {
    var fields := GetFields(Image);
    var names := GetJsonFieldNames(Image);
    Img.NamesAndAttributesDistinct();
    Img.KnownAttributesAreTheAttributes();
    assert GetFields(ImageList)[0] == ImageListField(Lst.IlDcIdentifier);
    forall i, j | 0 <= i < j < |names|
      ensures names[i] != names[j]
    {
      Img.AttributeInjective(fields[i].image, fields[j].image);
    }
  }

  /** Every Image field is found again from its own attribute. */
  lemma ImageFieldRoundTrip(f: Img.ImageEnvField)
    ensures EnvFieldOfImageListJsonAttribute(Img.ImageListJsonAttribute(f)) == Success(ImageField(f))
  {
  }

  /** No input resolves to the ImageList field: its only attribute,
      "dc:identifier", is claimed first by an Image field. */
  lemma ImageListFieldShadowed(jsonAttr: string, l: Lst.ImageListEnvField)
    ensures EnvFieldOfImageListJsonAttribute(jsonAttr) != Success(ImageListField(l))
    ensures EnvFieldOfImageListJsonAttribute(Lst.ImageListJsonAttribute(l)) ==
              Success(ImageField(Img.DcIdentifier))
  {
    assert Img.ImageListJsonAttribute(Img.DcIdentifier) == Lst.ImageListJsonAttribute(l);
  }

  /** No External field's name is an Image or ImageList attribute. */
  lemma ExternalNamesAreNotAttributes(e: Ext.ExternalEnvField)
    ensures forall f :: Img.ImageListJsonAttribute(f) != Ext.Name(e)
    ensures forall l :: Lst.ImageListJsonAttribute(l) != Ext.Name(e)
  {
  }

  /** Every External field is found from its NAME used as an attribute. */
  lemma ExternalFieldFoundByName(e: Ext.ExternalEnvField)
    ensures EnvFieldOfImageListJsonAttribute(Ext.Name(e)) == Success(ExternalField(e))
  {
    ExternalNamesAreNotAttributes(e);
  }

  /** The lookup's result always comes from the Image or External category,
      never from ImageList. */
  lemma LookupResultSection(jsonAttr: string)
    ensures EnvFieldOfImageListJsonAttribute(jsonAttr).Success? ==>
              Section(EnvFieldOfImageListJsonAttribute(jsonAttr).value) in {Image, External}
  {
    match EnvFieldOfImageListJsonAttribute(jsonAttr)
    case Success(f) => ImageListFieldShadowed(jsonAttr, Lst.IlDcIdentifier);
    case Failure(_) =>
  }

  /** The empty string is neither an Image attribute nor an External name,
      so it is rejected. */
  lemma EmptyAttributeRejected()
    ensures EnvFieldOfImageListJsonAttribute("") ==
              Failure(NoEnumConstant("ExternalEnvField", ""))
    ensures !ExistsImageListJsonAttribute("")
  {
    Img.NamesAndAttributesDistinct();
    Ext.NamesDistinct();
  }

  /** The hypervisor-URI attribute resolves to its Image field. */
  lemma HvUriScenario()
    ensures EnvFieldOfImageListJsonAttribute("hv:uri") == Success(ImageField(Img.HvUri))
  {
    assert "hv:uri" == Img.ImageListJsonAttribute(Img.HvUri);
  }

  /** "dc:identifier" resolves to the Image field, not the ImageList one. */
  lemma DcIdentifierScenario()
    ensures EnvFieldOfImageListJsonAttribute("dc:identifier") == Success(ImageField(Img.DcIdentifier))
  {
    assert "dc:identifier" == Img.ImageListJsonAttribute(Img.DcIdentifier);
  }

  /** An External field's name is accepted in place of an attribute. */
  lemma EventTypeScenario()
    ensures EnvFieldOfImageListJsonAttribute("VMCATCHER_EVENT_TYPE") == Success(ExternalField(Ext.EventType))
    ensures ExistsImageListJsonAttribute("VMCATCHER_EVENT_TYPE")
  {
    assert "VMCATCHER_EVENT_TYPE" == Ext.Name(Ext.EventType);
    ExternalFieldFoundByName(Ext.EventType);
  }

  /** A known attribute exists; a made-up one does not. */
  lemma ExistsScenarios()
    ensures ExistsImageListJsonAttribute("sl:checksum:sha512")
    ensures !ExistsImageListJsonAttribute("bogus:key")
  {
    assert "sl:checksum:sha512" in Img.KnownAttributes;
    assert "bogus:key" !in Img.KnownAttributes;
    assert forall e :: Ext.Name(e) != "bogus:key";
  }

  /** The names of different enums never clash, except that
      "VMCATCHER_EVENT_AD_MPURI" is both an Image and an External field. */
  lemma SharedNames()
    ensures forall f, e :: Img.Name(f) == Ext.Name(e) <==> f == Img.AdMpUri && e == Ext.AdMpUri
    ensures forall f, l :: Img.Name(f) != Lst.Name(l)
    ensures forall l, e :: Lst.Name(l) != Ext.Name(e)
  {
  }

  /** Forward lookup of every declared field by name: the field's own
      attribute, except that the External field sharing its name with an
      Image field gets the Image field's attribute instead of "". */
  lemma ForwardLookupOfEveryField(f: EnvField)
    ensures ImageListJsonAttributeOfEnvField(Name(f)) ==
              if f == ExternalField(Ext.AdMpUri) then Success("ad:mpuri")
              else Success(ImageListJsonAttribute(f))
  {
    match f
    case ImageField(i) =>
    case ImageListField(l) =>
      assert forall g :: Img.Name(g) != Lst.Name(l);
    case ExternalField(e) =>
      if e == Ext.AdMpUri {
        assert Img.Name(Img.AdMpUri) == Ext.Name(e);
      } else {
        assert forall g :: Img.Name(g) != Ext.Name(e);
        assert forall l :: Lst.Name(l) != Ext.Name(e);
      }
  }

  /** The name shared by an Image and an External field resolves to the
      Image field's attribute, not "". */
  lemma SharedNameScenario()
    ensures ImageListJsonAttributeOfEnvField("VMCATCHER_EVENT_AD_MPURI") == Success("ad:mpuri")
  {
    assert "VMCATCHER_EVENT_AD_MPURI" == Img.Name(Img.AdMpUri);
  }

  /** An External-only name resolves to "". */
  lemma ExternalNameScenario()
    ensures ImageListJsonAttributeOfEnvField("VMCATCHER_EVENT_VO") == Success("")
  {
    assert "VMCATCHER_EVENT_VO" == Ext.Name(Ext.Vo);
    assert forall g :: Img.Name(g) != "VMCATCHER_EVENT_VO";
    assert forall l :: Lst.Name(l) != "VMCATCHER_EVENT_VO";
  }

  /** An attribute is not a field name, so forward lookup rejects it. */
  lemma ForwardLookupRejectsAttribute()
    ensures ImageListJsonAttributeOfEnvField("dc:identifier") ==
              Failure(NoEnumConstant("ExternalEnvField", "dc:identifier"))
  {
    assert forall g :: Img.Name(g) != "dc:identifier";
    assert forall l :: Lst.Name(l) != "dc:identifier";
    assert forall e :: Ext.Name(e) != "dc:identifier";
  }
}
