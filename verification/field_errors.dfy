/** The IllegalArgumentException variants the registry's lookups throw. */
module FieldErrors {

  datatype FieldError =
      /** ImageEnvField.ofImageListJsonAttribute: "Unknown json attribute '<attr>'". */
    | UnknownJsonAttribute(attr: string)
      /** ImageListEnvField.ofImageListJsonAttribute: "Unknown json field '<attr>'". */
    | UnknownJsonField(attr: string)
      /** Enum.valueOf on an enum with no constant of that name. */
    | NoEnumConstant(enumType: string, name: string)
}
