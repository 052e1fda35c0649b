/** Image-list-level fields of the event (JSON) scheme: a single constant. */
module ImageListEventFields {
  import opened EventSection

  datatype ImageListEventField = IlDcIdentifier

  /** values(): the constants in declaration order. */
  const Values: seq<ImageListEventField> := [IlDcIdentifier]

  /** ordinal(): position in declaration order. */
  function Ordinal(f: ImageListEventField): nat
  {
    match f
    case IlDcIdentifier => 0
  }

  /** name(): the constant's identifier. */
  function Name(f: ImageListEventField): string
  {
    match f
    case IlDcIdentifier => "VMCATCHER_EVENT_IL_DC_IDENTIFIER"
  }

  /** jsonField(): the constructor argument, unchanged. */
  function JsonField(f: ImageListEventField): string
  {
    match f
    case IlDcIdentifier => "dc:identifier"
  }

  /** section(): the constant belongs to the ImageList section. */
  function Section(f: ImageListEventField): EventFieldSection
  {
    ImageList
  }

  /** values() lists the one constant, at its ordinal. */
  lemma ValuesEnumerateAll()
    ensures |Values| == 1
    ensures forall f :: Ordinal(f) < |Values| && Values[Ordinal(f)] == f
    ensures forall i | 0 <= i < |Values| :: Ordinal(Values[i]) == i
  {
  }
}
