/** The three categories of the environment scheme (the constants of
    EnvFieldCategory). Their field lists and lookups are in module
    EnvFieldCategories, which needs the field enums that in turn name these
    categories. */
module EnvCategory {

  /** Declared in this order: External, ImageList, Image. */
  datatype EnvFieldCategory = External | ImageList | Image

  /** ordinal(): position in declaration order. */
  function CategoryOrdinal(c: EnvFieldCategory): nat
  {
    match c
    case External => 0
    case ImageList => 1
    case Image => 2
  }
}
