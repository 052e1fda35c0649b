/** The three sections of the event scheme (the constants of
    EventFieldSection). Their field lists are in module EventFieldSections. */
module EventSection {

  /** Declared in this order: External, ImageList, Image. */
  datatype EventFieldSection = External | ImageList | Image
}
