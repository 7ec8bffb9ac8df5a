/** The JSON responses the API route handlers return. */
module Responses {
  import opened Types

  datatype Body =
    | ErrorBody(error: string)      // `{ error }`
    | ProjectBody(project: Project) // `{ success: true, project }`
    | ProfileBody(profile: Profile) // `{ success: true, profile }`
    | SuccessBody                   // `{ success: true }`

  datatype Response = Response(status: int, body: Body)

  const InternalError: string := "Internal server error"

  /** What the handlers' outer `catch` answers, here for a request body that is not a form. */
  const Internal: Response := Response(500, ErrorBody(InternalError))
}
