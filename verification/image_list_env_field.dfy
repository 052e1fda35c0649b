/** Image-list-level fields of the environment scheme: a single constant. */
module ImageListEnvFields {
  import opened Wrappers
  import opened FieldErrors
  import opened EnvCategory
  import Tables

  datatype ImageListEnvField = IlDcIdentifier

  /** values(): the constants in declaration order. */
  const Values: seq<ImageListEnvField> := [IlDcIdentifier]

  /** ordinal(): position in declaration order. */
  function Ordinal(f: ImageListEnvField): nat
  {
    match f
    case IlDcIdentifier => 0
  }

  /** name(): the constant's identifier, exported as an environment variable. */
  function Name(f: ImageListEnvField): string
  {
    match f
    case IlDcIdentifier => "VMCATCHER_EVENT_IL_DC_IDENTIFIER"
  }

  /** imageListJsonAttribute(): the constructor argument, unchanged. */
  function ImageListJsonAttribute(f: ImageListEnvField): string
  {
    match f
    case IlDcIdentifier => "dc:identifier"
  }

  /** section(): the constant belongs to the ImageList category. */
  function Section(f: ImageListEnvField): EnvFieldCategory
  {
    ImageList
  }

  /** The static reverse map, filled from values() in order. */
  const ReverseMap: map<string, ImageListEnvField> := Tables.Build(Values, ImageListJsonAttribute)

  /** values() lists every constant exactly once, at its ordinal. */
  lemma ValuesEnumerateAll()
    ensures |Values| == 1
    ensures forall f :: Ordinal(f) < |Values| && Values[Ordinal(f)] == f
    ensures forall i | 0 <= i < |Values| :: Ordinal(Values[i]) == i
  {
  }

  /** The reverse map has the single entry "dc:identifier". */
  lemma ReverseMapContents()
    ensures ReverseMap == map["dc:identifier" := IlDcIdentifier]
  {
    var m := ReverseMap;
    assert m.Keys == {"dc:identifier"} by {
      assert Tables.KeySet(Values, ImageListJsonAttribute) == {"dc:identifier"} by {
        assert ImageListJsonAttribute(Values[0]) == "dc:identifier";
      }
    }
    assert Tables.LastWithKey(Values, ImageListJsonAttribute, 0);
  }

  /** ofImageListJsonAttribute: the constant whose attribute is `jsonAttribute`,
      or an IllegalArgumentException when there is none. */
  function OfImageListJsonAttribute(jsonAttribute: string): (r: Result<ImageListEnvField, FieldError>)
    ensures r.Success? ==> ImageListJsonAttribute(r.value) == jsonAttribute
    ensures forall f | ImageListJsonAttribute(f) == jsonAttribute :: r == Success(f)
    ensures r.Failure? ==> r.error == UnknownJsonField(jsonAttribute)
  {
    ReverseMapContents();
    assert forall f :: ImageListJsonAttribute(f) == jsonAttribute ==> f == IlDcIdentifier;
    match Tables.HashMapGet(ReverseMap, jsonAttribute)
    case Some(f) => Success(f)
    case None => Failure(UnknownJsonField(jsonAttribute))
  }

  /** The name-to-constant map Enum.valueOf consults, filled from values()
      in order like the reverse map. */
  const ConstantDirectory: map<string, ImageListEnvField> := Tables.Build(Values, Name)

  /** No two constants share a name, so the directory holds every constant
      under its own name. */
  lemma ConstantDirectoryHasEveryField()
    ensures forall f :: Name(f) in ConstantDirectory && ConstantDirectory[Name(f)] == f
  {
    ValuesEnumerateAll();
    assert Tables.DistinctKeys(Values, Name);
    Tables.BuildDistinct(Values, Name);
    assert Tables.KeySet(Values, Name) == {Name(IlDcIdentifier)} by {
      assert Name(Values[0]) == Name(IlDcIdentifier);
    }
  }

  /** Enum.valueOf: the constant called `name`, or an IllegalArgumentException
      when there is none. */
  function ValueOf(name: string): (r: Result<ImageListEnvField, FieldError>)
    ensures r.Success? ==> Name(r.value) == name
    ensures forall f | Name(f) == name :: r == Success(f)
    ensures r.Failure? ==> r.error == NoEnumConstant("ImageListEnvField", name)
  {
    ConstantDirectoryHasEveryField();
    assert forall f :: Name(f) == name ==> f == IlDcIdentifier;
    match Tables.HashMapGet(ConstantDirectory, name)
    case Some(f) => Success(f)
    case None => Failure(NoEnumConstant("ImageListEnvField", name))
  }

  /** Exactly "dc:identifier" resolves, to the one constant; every other
      string is rejected. */
  lemma OnlyDcIdentifierResolves(jsonAttribute: string)
    ensures OfImageListJsonAttribute(jsonAttribute) ==
              if jsonAttribute == "dc:identifier" then Success(IlDcIdentifier)
              else Failure(UnknownJsonField(jsonAttribute))
  {
  }

  /** valueOf agrees with scanning values() for the first constant with the
      name, and fails exactly when the scan finds none. */
  lemma ValueOfAgreesWithSearch(name: string)
    ensures ValueOf(name) ==
              match Tables.FirstWith(Values, Name, name)
              case Some(i) => Success(Values[i])
              case None => Failure(NoEnumConstant("ImageListEnvField", name))
  {
    assert Tables.DistinctKeys(Values, Name);
    Tables.BuildAgreesWithSearch(Values, Name, name);
  }

  /** ofImageListJsonAttribute agrees with scanning values() for the first
      constant with the attribute. */
  lemma OfAttributeAgreesWithSearch(jsonAttribute: string)
    ensures OfImageListJsonAttribute(jsonAttribute) ==
              match Tables.FirstWith(Values, ImageListJsonAttribute, jsonAttribute)
              case Some(i) => Success(Values[i])
              case None => Failure(UnknownJsonField(jsonAttribute))
  {
    assert Tables.DistinctKeys(Values, ImageListJsonAttribute);
    Tables.BuildAgreesWithSearch(Values, ImageListJsonAttribute, jsonAttribute);
  }
}
