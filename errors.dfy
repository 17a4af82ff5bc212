/** The exceptions the converter throws, as values. */
module Errors {

  datatype Error =
    | NoGeometryAttributes   // Converter::setGeomAttrs, no geometry field configured
    | CrsNameMissing         // CrsBuilder::checkCrs, "name" CRS without properties.name
    | CrsLinkMissing         // CrsBuilder::checkCrs, "link" CRS without properties.href/type
    | CrsTypeInvalid         // CrsBuilder::checkCrs, type neither "name" nor "link"
    | TooFewArguments        // Converter::addOptionals calls getCrsBuilder with one of its two arguments

  /** A value, or the exception raised instead of returning it. */
  datatype Result<T> = Ok(value: T) | Err(error: Error)

  /** Normal completion of a procedure, or the exception it raised. */
  datatype Outcome = Pass | Fail(error: Error)
}
