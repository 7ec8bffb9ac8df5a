/** The two entities of the portfolio and the uploaded-file value. */
module Types {
  import opened Common

  /** A portfolio project (a row of the `projects` table, or a locally stored record). */
  datatype Project = Project(
    id: string,
    title: string,
    description: Option<string>,
    image_url: string,
    created_at: string,
    display_order: int)

  /** The single profile record. */
  datatype Profile = Profile(
    id: string,
    bio: Option<string>,
    avatar_url: Option<string>,
    cv_url: Option<string>,
    updated_at: string)

  /**
   * A file taken from a multipart form: its name, its MIME type and the
   * data URL a browser's FileReader would produce for it (the encoding
   * itself is not modelled).
   */
  datatype FormFile = FormFile(name: string, mimeType: string, dataUrl: string)
}
