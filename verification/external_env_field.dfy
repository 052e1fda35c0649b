/** Fields of the environment scheme that describe the invocation context
    rather than an image list; they have no JSON attribute. */
module ExternalEnvFields {
  import opened Wrappers
  import opened FieldErrors
  import opened EnvCategory
  import Tables

  datatype ExternalEnvField =
    | EventType | AdMpUri | Filename | CacheDirCache | UuidSession | Vo | ImageListUrl

  /** values(): the constants in declaration order. */
  const Values: seq<ExternalEnvField> :=
    [EventType, AdMpUri, Filename, CacheDirCache, UuidSession, Vo, ImageListUrl]

  /** ordinal(): position in declaration order. */
  function Ordinal(f: ExternalEnvField): nat
  {
    match f
    case EventType => 0
    case AdMpUri => 1
    case Filename => 2
    case CacheDirCache => 3
    case UuidSession => 4
    case Vo => 5
    case ImageListUrl => 6
  }

  /** name(): the constant's identifier, exported as an environment variable.
      The last one is a local addition with no counterpart upstream. */
  function Name(f: ExternalEnvField): string
  {
    match f
    case EventType => "VMCATCHER_EVENT_TYPE"
    case AdMpUri => "VMCATCHER_EVENT_AD_MPURI"
    case Filename => "VMCATCHER_EVENT_FILENAME"
    case CacheDirCache => "VMCATCHER_CACHE_DIR_CACHE"
    case UuidSession => "VMCATCHER_EVENT_UUID_SESSION"
    case Vo => "VMCATCHER_EVENT_VO"
    case ImageListUrl => "VMCATCHER_X_EVENT_IMAGE_LIST_URL"
  }

  /** imageListJsonAttribute(): external fields have none, so "". */
  function ImageListJsonAttribute(f: ExternalEnvField): string
  {
    ""
  }

  /** section(): every constant belongs to the External category. */
  function Section(f: ExternalEnvField): EnvFieldCategory
  {
    External
  }

  /** values() lists every constant exactly once, at its ordinal. */
  lemma ValuesEnumerateAll()
    ensures |Values| == 7
    ensures forall f :: Ordinal(f) < |Values| && Values[Ordinal(f)] == f
    ensures forall i | 0 <= i < |Values| :: Ordinal(Values[i]) == i
  {
  }

  lemma NameInjective(f: ExternalEnvField, g: ExternalEnvField)
    ensures Name(f) == Name(g) ==> f == g
  {
  }

  /** Distinct constants have distinct, non-empty names. */
  lemma NamesDistinct()
    ensures Tables.DistinctKeys(Values, Name)
    ensures forall f :: Name(f) != ""
  {
    ValuesEnumerateAll();
    forall i, j | 0 <= i < j < |Values|
      ensures Name(Values[i]) != Name(Values[j])
    {
      NameInjective(Values[i], Values[j]);
    }
  }

  /** The name-to-constant map Enum.valueOf consults, filled from values()
      in order like the reverse map. */
  const ConstantDirectory: map<string, ExternalEnvField> := Tables.Build(Values, Name)

  /** No two constants share a name, so the directory holds every constant
      under its own name. */
  lemma ConstantDirectoryHasEveryField()
    ensures forall f :: Name(f) in ConstantDirectory && ConstantDirectory[Name(f)] == f
  {
    NamesDistinct();
    Tables.BuildDistinct(Values, Name);
    forall f
      ensures Name(f) in ConstantDirectory && ConstantDirectory[Name(f)] == f
    {
      ValuesEnumerateAll();
      assert Values[Ordinal(f)] == f;
    }
  }

  /** Enum.valueOf: the constant called `name`, or an IllegalArgumentException
      when there is none. */
  function ValueOf(name: string): (r: Result<ExternalEnvField, FieldError>)
    ensures r.Success? ==> Name(r.value) == name
    ensures forall f | Name(f) == name :: r == Success(f)
    ensures r.Failure? ==> r.error == NoEnumConstant("ExternalEnvField", name)
  {
    ConstantDirectoryHasEveryField();
    match Tables.HashMapGet(ConstantDirectory, name)
    case Some(f) => Success(f)
    case None => Failure(NoEnumConstant("ExternalEnvField", name))
  }

  /** Resolving a constant's name gives the constant back; the empty name
      resolves to nothing. */
  lemma NameRoundTrip(f: ExternalEnvField)
    ensures ValueOf(Name(f)) == Success(f)
    ensures ValueOf("").Failure?
  {
    NamesDistinct();
  }

  /** valueOf agrees with scanning values() for the first constant with the
      name, and fails exactly when the scan finds none. */
  lemma ValueOfAgreesWithSearch(name: string)
    ensures ValueOf(name) ==
              match Tables.FirstWith(Values, Name, name)
              case Some(i) => Success(Values[i])
              case None => Failure(NoEnumConstant("ExternalEnvField", name))
  {
    NamesDistinct();
    Tables.BuildAgreesWithSearch(Values, Name, name);
  }
}
