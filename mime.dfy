/** The MIME resolver of the image handler: a file extension token to a MIME type. */
module MimeResolver {
  import opened Wrappers

  /** The fallback for a missing or unmapped extension. */
  const GenericImage: string := "image"

  /** The fixed table of mapped extensions; lookup is exact and case-sensitive. */
  const MimeTable: map<string, string> := map[
    "jpeg" := "image/jpeg",
    "jpg"  := "image/jpeg",
    "bmp"  := "image/bmp",
    "gif"  := "image/gif",
    "svg"  := "image/svg+xml",
    "tif"  := "image/tiff",
    "tiff" := "image/tiff",
    "ico"  := "image/x-icon"
  ]

  /**
   * The MIME type for an optional extension: the table entry when the
   * extension is defined and mapped, the generic "image" otherwise.
   */
  function GetMimeType(extension: Option<string>): (mime: string)
    ensures extension.Some? && extension.value in MimeTable ==> mime == MimeTable[extension.value]
    ensures extension.None? || extension.value !in MimeTable ==> mime == GenericImage
  {
    match extension
    case None => GenericImage
    case Some(ext) =>
      match ext
      case "jpeg" => "image/jpeg"
      case "jpg" => "image/jpeg"
      case "bmp" => "image/bmp"
      case "gif" => "image/gif"
      case "svg" => "image/svg+xml"
      case "tif" => "image/tiff"
      case "tiff" => "image/tiff"
      case "ico" => "image/x-icon"
      case _ => GenericImage
  }
}
