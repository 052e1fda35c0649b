# Event-field registry of snf-vmcatcher, in Dafny

snf-vmcatcher synchronises VM image lists and tells downstream consumers about
image events, either through process environment variables or through JSON
payloads. Its event-field registry is the fixed vocabulary both channels use.
The registry is a set of Java enums, and each field has:

- a symbolic name, such as `VMCATCHER_EVENT_HV_URI`, which is also the
  environment-variable name;
- a wire attribute, such as `hv:uri`, which is the key in the image-list JSON.

There are two naming schemes, and each splits its fields into three categories:
External, ImageList and Image.

- The environment scheme has `EnvFieldCategory` with `ExternalEnvField`,
  `ImageListEnvField` and `ImageEnvField`. It has 7 + 1 + 19 fields.
- The event (JSON) scheme has `EventFieldSection` with `ImageListEventField`
  and `ImageEventField`. It has 1 + 13 fields, and the External section is
  supplied by the caller. Six image declarations of this scheme are
  commented out.

This project models:

- every constant, with its name, ordinal, attribute and category;
- the static reverse maps, filled from `values()` by `HashMap.put`;
- `Enum.valueOf`;
- the per-category field lists and the list of every field;
- the forward and reverse lookups across categories. Both try Image, then
  ImageList, then External.

It then proves:

- that each lookup is correct and complete;
- that lookups round-trip;
- the priority order of the cascade;
- the empty-string policy;
- which lookups are shadowed;
- that the two schemes' Image and ImageList fields agree wherever both
  declare one. The External field `VMCATCHER_EVENT_AD_MPURI` shares its name
  with an image event field but not its attribute.

Modules, one per Java type:

- `Wrappers`: `Option` for Java's `null`, and `Result` for a value or a thrown
  `IllegalArgumentException`.
- `FieldErrors`: the three `IllegalArgumentException` variants the registry
  can raise.
- `Tables`: the generic part of every enum:
  - `Build` is the reverse map as a last-write-wins fold;
  - `FirstWith` is a declaration-order search. It is the independent
    reference that every map lookup is proved to agree with;
  - `KeysInOrder` is the name-list loop.
- `EnvCategory`, `EventSection`: the category enums' constants. These are kept
  apart from their operations because a field enum and its category enum
  refer to each other.
- `ImageEnvFields`, `ImageListEnvFields`, `ExternalEnvFields`: the
  environment scheme's field enums.
- `EnvFieldCategories`: `EnvFieldCategory`'s list functions and its three
  static lookups.
- `ImageEventFields`, `ImageListEventFields`: the event scheme's field enums.
- `EventFieldSections`: `EventFieldSection`'s list functions.
- `SchemeAlignment`: how the two schemes correspond.

`Enum.valueOf` is modelled as a lookup in `ConstantDirectory`. This is the
name-to-constant map that the Java runtime builds from `values()`.

**External fields are matched by name in the reverse lookup.** The last step
of `envFieldOfImageListJsonAttribute` calls `ExternalEnvField.valueOf(jsonAttr)`
(`EnvFieldCategory.java:83`). So it matches an External field by its symbolic
name, not by an attribute (External fields have none). As a consequence:

- `"VMCATCHER_EVENT_TYPE"` is accepted as if it were an attribute
  (`EnvFieldCategories.EventTypeScenario`);
- the empty string is rejected because no constant is named `""`
  (`EnvFieldCategories.EmptyAttributeRejected`).

**The ImageList field is shadowed.** Image is searched before ImageList, so
the reverse lookup can never return the ImageList field: its only attribute,
`dc:identifier`, also belongs to an Image field
(`EnvFieldCategories.ImageListFieldShadowed`).

The name lookup `imageListJsonAttributeOfEnvField` has a similar effect.
`VMCATCHER_EVENT_AD_MPURI` names both an Image field and an External field,
so it yields `ad:mpuri`, never `""`
(`EnvFieldCategories.ForwardLookupOfEveryField`).

**A commented-out event declaration reuses an attribute.** The commented-out
user-URI line of `ImageEventField.java:47` is written with `"ad:mpuri"`, which
is `AD_MPURI`'s attribute. The environment scheme uses `"ad:user:uri"` for
that field. So `"ad:mpuri"` resolves to `AD_MPURI` in the event scheme
(`ImageEventFields.CommentedOutUserUriResolvesToMpUri`). Uncommented, that
declaration would replace `AD_MPURI` in the reverse map
(`ImageEventFields.UncommentedUserUriWouldShadowMpUri`).

All source paths below are under `src/main/scala/gr/grnet/egi/vmcatcher/event/`.
The table cites them in full.

## Model

| member | source | states |
|---|---|---|
| Tables.Build | src/main/scala/gr/grnet/egi/vmcatcher/event/ImageEnvField.java:50-56 | The reverse map filled from `values()` holds exactly the table's keys. Each entry sits under its own key, and for every key the entry stored is the last constant carrying it (`HashMap.put` overwrites). |
| Tables.BuildDistinct | src/main/scala/gr/grnet/egi/vmcatcher/event/ImageEnvField.java:50-56 | When no two constants share a key, nothing is overwritten: the map has one entry per constant, and each constant is found under its own key. |
| Tables.BuildAgreesWithSearch | src/main/scala/gr/grnet/egi/vmcatcher/event/ImageEnvField.java:68-72 | With distinct keys, `get` on the reverse map returns the first constant in declaration order that carries the key, and null when there is none. |
| Tables.FirstWith | src/main/scala/gr/grnet/egi/vmcatcher/event/ImageEnvField.java:53-55 | The independent reference for a lookup: scanning the table in declaration order, it returns the first position with the key and skips none before it. It finds nothing exactly when no constant carries the key. |
| Tables.KeysInOrder | src/main/scala/gr/grnet/egi/vmcatcher/event/EnvFieldCategory.java:43-49 | The list of names has one entry per field, and entry i is field i's key. |
| ImageEnvFields.ValuesEnumerateAll | src/main/scala/gr/grnet/egi/vmcatcher/event/ImageEnvField.java:29-48 | `values()` lists all 19 constants exactly once, each at its ordinal. |
| ImageEnvFields.NamesAndAttributesDistinct | src/main/scala/gr/grnet/egi/vmcatcher/event/ImageEnvField.java:29-47 | No two image constants share a name or an attribute, and no attribute is empty. |
| ImageEnvFields.AttributeNamespaces | src/main/scala/gr/grnet/egi/vmcatcher/event/ImageEnvField.java:29-47 | Every attribute starts with one of the four namespace prefixes `dc:`, `hv:`, `sl:`, `ad:` and has more after it. |
| ImageEnvFields.KnownAttributesAreTheAttributes | src/main/scala/gr/grnet/egi/vmcatcher/event/ImageEnvField.java:29-47 | The independently written set of 19 attribute strings is exactly the set of the constants' attributes. |
| ImageEnvFields.ReverseMapKeys | src/main/scala/gr/grnet/egi/vmcatcher/event/ImageEnvField.java:50-56 | The reverse map's key set is exactly the known attribute set. |
| ImageEnvFields.ReverseMapHasEveryField | src/main/scala/gr/grnet/egi/vmcatcher/event/ImageEnvField.java:50-56 | The reverse map has 19 entries, and each constant is stored under its own attribute. |
| ImageEnvFields.OfImageListJsonAttribute | src/main/scala/gr/grnet/egi/vmcatcher/event/ImageEnvField.java:68-72 | A result always carries the asked-for attribute. The constant with that attribute is always returned. Success happens exactly for the known attributes; otherwise the error is "Unknown json attribute" for that input. |
| ImageEnvFields.ConstantDirectoryHasEveryField | src/main/scala/gr/grnet/egi/vmcatcher/event/ImageEnvField.java:29-48 | The name-to-constant directory that `valueOf` consults holds every constant under its own name. |
| ImageEnvFields.ValueOf | src/main/scala/gr/grnet/egi/vmcatcher/event/EnvFieldCategory.java:62 | `ImageEnvField.valueOf` returns the constant with that name whenever one exists, and only a constant with that name. Otherwise it fails with "No enum constant" for `ImageEnvField`. |
| ImageEnvFields.AttributeRoundTrip | src/main/scala/gr/grnet/egi/vmcatcher/event/ImageEnvField.java:66-72 | Looking up a constant's own attribute returns that constant. |
| ImageEnvFields.NameRoundTrip | src/main/scala/gr/grnet/egi/vmcatcher/event/EnvFieldCategory.java:62 | `valueOf(f.name())` returns `f`. |
| ImageEnvFields.ValueOfAgreesWithSearch | src/main/scala/gr/grnet/egi/vmcatcher/event/EnvFieldCategory.java:62 | `ImageEnvField.valueOf` returns the first constant in declaration order with that name, and fails exactly when there is none. |
| ImageEnvFields.OfAttributeAgreesWithSearch | src/main/scala/gr/grnet/egi/vmcatcher/event/ImageEnvField.java:50-72 | `ofImageListJsonAttribute` returns the first constant in declaration order with that attribute, and fails exactly when there is none. |
| ImageListEnvFields.ValuesEnumerateAll | src/main/scala/gr/grnet/egi/vmcatcher/event/ImageListEnvField.java:29 | `values()` is the single constant, at ordinal 0. |
| ImageListEnvFields.ReverseMapContents | src/main/scala/gr/grnet/egi/vmcatcher/event/ImageListEnvField.java:31-37 | The reverse map is exactly `{"dc:identifier" -> VMCATCHER_EVENT_IL_DC_IDENTIFIER}`. |
| ImageListEnvFields.OfImageListJsonAttribute | src/main/scala/gr/grnet/egi/vmcatcher/event/ImageListEnvField.java:49-53 | A result carries the asked-for attribute, and a constant with that attribute is always found. The failure is "Unknown json field" for that input. |
| ImageListEnvFields.ConstantDirectoryHasEveryField | src/main/scala/gr/grnet/egi/vmcatcher/event/ImageListEnvField.java:29 | The `valueOf` directory holds the constant under its name. |
| ImageListEnvFields.ValueOf | src/main/scala/gr/grnet/egi/vmcatcher/event/EnvFieldCategory.java:66 | `ImageListEnvField.valueOf` returns the constant exactly when the name is its name. Otherwise it fails with "No enum constant" for `ImageListEnvField`. |
| ImageListEnvFields.OnlyDcIdentifierResolves | src/main/scala/gr/grnet/egi/vmcatcher/event/ImageListEnvField.java:49-53 | Exactly `"dc:identifier"` resolves, to the one constant. Every other string fails with "Unknown json field". |
| ImageListEnvFields.ValueOfAgreesWithSearch | src/main/scala/gr/grnet/egi/vmcatcher/event/EnvFieldCategory.java:66 | `ImageListEnvField.valueOf` returns the first constant in declaration order with that name, and fails exactly when there is none. |
| ImageListEnvFields.OfAttributeAgreesWithSearch | src/main/scala/gr/grnet/egi/vmcatcher/event/ImageListEnvField.java:31-53 | `ofImageListJsonAttribute` returns the first constant in declaration order with that attribute, and fails with "Unknown json field" exactly when there is none. |
| ExternalEnvFields.ValuesEnumerateAll | src/main/scala/gr/grnet/egi/vmcatcher/event/ExternalEnvField.java:26-32 | `values()` lists all 7 constants exactly once, each at its ordinal. |
| ExternalEnvFields.NamesDistinct | src/main/scala/gr/grnet/egi/vmcatcher/event/ExternalEnvField.java:26-32 | The External names are pairwise distinct and none is empty. |
| ExternalEnvFields.ConstantDirectoryHasEveryField | src/main/scala/gr/grnet/egi/vmcatcher/event/ExternalEnvField.java:26-32 | The `valueOf` directory holds every External constant under its name. |
| ExternalEnvFields.ValueOf | src/main/scala/gr/grnet/egi/vmcatcher/event/EnvFieldCategory.java:69 | `ExternalEnvField.valueOf` returns the constant with that name whenever one exists, and only such a constant. Otherwise it fails with "No enum constant" for `ExternalEnvField`. |
| ExternalEnvFields.NameRoundTrip | src/main/scala/gr/grnet/egi/vmcatcher/event/EnvFieldCategory.java:83 | `valueOf(e.name())` returns `e`, and `valueOf("")` fails. |
| ExternalEnvFields.ValueOfAgreesWithSearch | src/main/scala/gr/grnet/egi/vmcatcher/event/EnvFieldCategory.java:69 | `ExternalEnvField.valueOf` returns the first constant in declaration order with that name, and fails exactly when there is none. |
| EnvFieldCategories.GetFields | src/main/scala/gr/grnet/egi/vmcatcher/event/EnvFieldCategory.java:29-41 | A category lists 7, 1 or 19 fields. Entry i belongs to the category and has ordinal i. A field is listed exactly when it belongs to the category. |
| EnvFieldCategories.GetJsonFieldNames | src/main/scala/gr/grnet/egi/vmcatcher/event/EnvFieldCategory.java:43-49 | The name list is as long as the field list, and entry i is field i's attribute. For External every entry is `""`. |
| EnvFieldCategories.AllFields | src/main/scala/gr/grnet/egi/vmcatcher/event/EnvFieldCategory.java:51-58 | All 27 fields appear, each exactly once. Categories come in the order External, ImageList, Image, and within a category the fields are in declaration order. |
| EnvFieldCategories.ImageListJsonAttributeOfEnvField | src/main/scala/gr/grnet/egi/vmcatcher/event/EnvFieldCategory.java:60-72 | An Image field with that name wins, then the ImageList field, then an External field (attribute `""`). When no enum has the name, the External `valueOf` exception propagates. |
| EnvFieldCategories.EnvFieldOfImageListJsonAttribute | src/main/scala/gr/grnet/egi/vmcatcher/event/EnvFieldCategory.java:74-86 | The Image field with that attribute wins, then the ImageList field with it, then the External field whose name equals the input. Otherwise the External `valueOf` exception propagates. |
| EnvFieldCategories.ExistsImageListJsonAttribute | src/main/scala/gr/grnet/egi/vmcatcher/event/EnvFieldCategory.java:88-96 | True exactly when the input is a known Image attribute or an External field's name. |
| EnvFieldCategories.JsonFieldNamesByCategory | src/main/scala/gr/grnet/egi/vmcatcher/event/EnvFieldCategory.java:43-49 | The ImageList list is `["dc:identifier"]`. The Image list has no duplicates, and each entry is non-empty and a known attribute. |
| EnvFieldCategories.ImageFieldRoundTrip | src/main/scala/gr/grnet/egi/vmcatcher/event/EnvFieldCategory.java:74-77 | Every Image field is found again from its own attribute. |
| EnvFieldCategories.ImageListFieldShadowed | src/main/scala/gr/grnet/egi/vmcatcher/event/EnvFieldCategory.java:74-81 | No input returns the ImageList field, and its attribute returns the Image `DC_IDENTIFIER` field. |
| EnvFieldCategories.ExternalNamesAreNotAttributes | src/main/scala/gr/grnet/egi/vmcatcher/event/ExternalEnvField.java:26-32 | No External name is an Image or ImageList attribute. |
| EnvFieldCategories.ExternalFieldFoundByName | src/main/scala/gr/grnet/egi/vmcatcher/event/EnvFieldCategory.java:82-84 | Every External field is returned when its name is given as the attribute. |
| EnvFieldCategories.LookupResultSection | src/main/scala/gr/grnet/egi/vmcatcher/event/EnvFieldCategory.java:74-86 | A successful reverse lookup always returns an Image or External field, never the ImageList field. |
| EnvFieldCategories.EmptyAttributeRejected | src/main/scala/gr/grnet/egi/vmcatcher/event/EnvFieldCategory.java:74-96 | The empty string fails with the External `valueOf` exception and does not exist. |
| EnvFieldCategories.HvUriScenario | src/main/scala/gr/grnet/egi/vmcatcher/event/EnvFieldCategory.java:76 | `hv:uri` resolves to `VMCATCHER_EVENT_HV_URI`. |
| EnvFieldCategories.DcIdentifierScenario | src/main/scala/gr/grnet/egi/vmcatcher/event/EnvFieldCategory.java:74-81 | `dc:identifier` resolves to the Image field, not the ImageList field. |
| EnvFieldCategories.EventTypeScenario | src/main/scala/gr/grnet/egi/vmcatcher/event/EnvFieldCategory.java:82-84 | `VMCATCHER_EVENT_TYPE` resolves to the External field and is reported as existing. |
| EnvFieldCategories.ExistsScenarios | src/main/scala/gr/grnet/egi/vmcatcher/event/EnvFieldCategory.java:88-96 | `sl:checksum:sha512` exists and `bogus:key` does not. |
| EnvFieldCategories.SharedNames | src/main/scala/gr/grnet/egi/vmcatcher/event/ExternalEnvField.java:26-32 | The only name shared between the environment enums is `VMCATCHER_EVENT_AD_MPURI`, which is both an Image and an External field. |
| EnvFieldCategories.ForwardLookupOfEveryField | src/main/scala/gr/grnet/egi/vmcatcher/event/EnvFieldCategory.java:60-72 | Each declared field's name yields its own attribute. The exception is the External `AD_MPURI`, which yields the Image field's `ad:mpuri`. |
| EnvFieldCategories.SharedNameScenario | src/main/scala/gr/grnet/egi/vmcatcher/event/EnvFieldCategory.java:60-63 | `VMCATCHER_EVENT_AD_MPURI` yields `ad:mpuri`. |
| EnvFieldCategories.ExternalNameScenario | src/main/scala/gr/grnet/egi/vmcatcher/event/EnvFieldCategory.java:60-72 | `VMCATCHER_EVENT_VO` yields `""`. |
| EnvFieldCategories.ForwardLookupRejectsAttribute | src/main/scala/gr/grnet/egi/vmcatcher/event/EnvFieldCategory.java:60-72 | An attribute such as `dc:identifier` is no field's name, so the forward lookup fails with the External `valueOf` exception. |
| ImageEventFields.ValuesEnumerateAll | src/main/scala/gr/grnet/egi/vmcatcher/event/ImageEventField.java:29-48 | `values()` lists the 13 uncommented constants exactly once, each at its ordinal. |
| ImageEventFields.JsonFieldsDistinct | src/main/scala/gr/grnet/egi/vmcatcher/event/ImageEventField.java:29-47 | No two image event constants share a JSON field, and none is empty. |
| ImageEventFields.KnownJsonFieldsAreTheFields | src/main/scala/gr/grnet/egi/vmcatcher/event/ImageEventField.java:29-47 | The independently written set of 13 JSON fields is exactly the set of the constants' fields. |
| ImageEventFields.ReverseMapHasEveryField | src/main/scala/gr/grnet/egi/vmcatcher/event/ImageEventField.java:50-56 | The reverse map has 13 entries, and each constant is stored under its JSON field. |
| ImageEventFields.ReverseMapKeys | src/main/scala/gr/grnet/egi/vmcatcher/event/ImageEventField.java:50-56 | The reverse map's key set is exactly the known JSON-field set. |
| ImageEventFields.OfJsonField | src/main/scala/gr/grnet/egi/vmcatcher/event/ImageEventField.java:68-70 | A result carries the asked-for JSON field, and the constant with it is always returned. The result is null exactly when the field is unknown. |
| ImageEventFields.NameForJsonField | src/main/scala/gr/grnet/egi/vmcatcher/event/ImageEventField.java:72-74 | The result is the name of the constant with that JSON field. It is None (a NullPointerException in the code) exactly when no constant has it. |
| ImageEventFields.JsonFieldRoundTrip | src/main/scala/gr/grnet/egi/vmcatcher/event/ImageEventField.java:66-74 | A constant's own JSON field gives back the constant and its name. |
| ImageEventFields.ChecksumFieldUnknown | src/main/scala/gr/grnet/egi/vmcatcher/event/ImageEventField.java:37 | The commented-out `sl:checksum:sha512` is unknown to both lookups. |
| ImageEventFields.CommentedOutFieldsUnknown | src/main/scala/gr/grnet/egi/vmcatcher/event/ImageEventField.java:38-46 | The attributes of the commented-out comments, group, user-full-name and user-GUID declarations, and `""`, are unknown to both lookups. |
| ImageEventFields.CommentedOutUserUriResolvesToMpUri | src/main/scala/gr/grnet/egi/vmcatcher/event/ImageEventField.java:44-47 | The commented-out user-URI declaration carries `"ad:mpuri"`, a copy of `AD_MPURI`'s attribute, so that attribute still resolves to `AD_MPURI`. The environment scheme's `"ad:user:uri"` is unknown here. |
| ImageEventFields.UncommentedUserUriWouldShadowMpUri | src/main/scala/gr/grnet/egi/vmcatcher/event/ImageEventField.java:47-56 | With the user-URI declaration uncommented after the others, the reverse-map fold would file it under `"ad:mpuri"`, although an earlier declaration carries that attribute. |
| ImageEventFields.OfJsonFieldAgreesWithSearch | src/main/scala/gr/grnet/egi/vmcatcher/event/ImageEventField.java:50-70 | `ofJsonField` returns the first constant in declaration order with that JSON field, and null exactly when there is none. |
| ImageListEventFields.ValuesEnumerateAll | src/main/scala/gr/grnet/egi/vmcatcher/event/ImageListEventField.java:26 | `values()` is the single constant, at ordinal 0. |
| EventFieldSections.GetFields | src/main/scala/gr/grnet/egi/vmcatcher/event/EventFieldSection.java:29-41 | A section lists the External constants as given, the 1 ImageList constant, or the 13 Image constants, each in its section and at its ordinal. For ImageList and Image a field is listed exactly when it belongs to the section. |
| EventFieldSections.GetJsonFieldNames | src/main/scala/gr/grnet/egi/vmcatcher/event/EventFieldSection.java:43-49 | The name list is as long as the field list, and entry i is field i's JSON field. |
| EventFieldSections.AllFields | src/main/scala/gr/grnet/egi/vmcatcher/event/EventFieldSection.java:51-58 | The External constants come first in their given order. Then come the ImageList field, then the 13 Image fields in declaration order. Every non-External field appears. |
| EventFieldSections.SectionContents | src/main/scala/gr/grnet/egi/vmcatcher/event/EventFieldSection.java:29-49 | The ImageList section is the one field with `["dc:identifier"]`. The Image section's JSON fields are distinct, non-empty and exactly the known ones. |
| SchemeAlignment.EventFieldsAreEnvFields | src/main/scala/gr/grnet/egi/vmcatcher/event/ImageEventField.java:29-47 | Every image event field has an environment counterpart with the same name and the same attribute. |
| SchemeAlignment.SharedNamesShareAttributes | src/main/scala/gr/grnet/egi/vmcatcher/event/ImageEventField.java:29-47 | Whenever the two schemes declare the same image name, they declare the same attribute for it. |
| SchemeAlignment.EventCounterpartExists | src/main/scala/gr/grnet/egi/vmcatcher/event/ImageEventField.java:37-47 | An image environment field has an event counterpart exactly when its event declaration is not commented out. |
| SchemeAlignment.DeclarationOrderPreserved | src/main/scala/gr/grnet/egi/vmcatcher/event/ImageEventField.java:29-47 | The event constants appear in the same relative order as their environment counterparts. |
| SchemeAlignment.ChecksumOnlyInEnvScheme | src/main/scala/gr/grnet/egi/vmcatcher/event/ImageEventField.java:37 | `sl:checksum:sha512` resolves in the environment scheme but not in the event scheme. |
| SchemeAlignment.EventLookupImpliesEnvLookup | src/main/scala/gr/grnet/egi/vmcatcher/event/ImageEventField.java:68-70 | Every JSON field the event scheme resolves, the environment scheme resolves to the counterpart. |
| SchemeAlignment.ImageListFieldsAlign | src/main/scala/gr/grnet/egi/vmcatcher/event/ImageListEventField.java:26 | The image-list field has the same name and attribute in both schemes, and that attribute is the Image `DC_IDENTIFIER` field's. |
| SchemeAlignment.ExternalNameClashesWithEventField | src/main/scala/gr/grnet/egi/vmcatcher/event/ExternalEnvField.java:27-36 | The External field `VMCATCHER_EVENT_AD_MPURI` has the same name as the image event field `AD_MPURI`, but attribute `""` instead of `"ad:mpuri"`. It is the only External name that any image event field uses. |

## Left out

- `Key.java` and `ErrorCode.java` are not part of this model. They are used
  elsewhere in the system, not by the registry.
- `ExternalEventField.java`, `IEnvField.java` and `IEventField.java` are not
  part of this model. The interfaces become the datatypes
  `EnvFieldCategories.EnvField` and `EventFieldSections.EventField`. The
  External event enum's constants are a sequence that the caller supplies.
- `null` arguments are not modelled: strings are never null here. Java's
  behaviour on a null name or attribute has no counterpart.
- Exception messages are represented by the `FieldError` constructor and its
  arguments, not by the message text.
- ImageEventFields.NameForJsonField returns None where the code throws a
  `NullPointerException` (it dereferences the null from `reverseMap.get`).
  The contract states when this happens, not that an exception is thrown.
- `HashMap` internals (hashing, buckets, iteration order) are not modelled.
  The map is the finite map that the sequence of `put` calls produces.
- Class initialisation order and `Collections.unmodifiableList` are not
  modelled. Every table is an immutable constant, so a list returned by
  `getFields` cannot be modified by construction.
- `getFields` returns the same list object on every call. This model returns
  equal values, so object identity is not modelled.
