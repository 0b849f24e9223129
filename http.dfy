/** The responses the handlers send, and what a handler does with one request. */
module Http {
  import opened Wrappers
  import opened Store

  const OK := 200
  const CREATED := 201
  const NO_CONTENT := 204
  const BAD_REQUEST := 400
  const NOT_FOUND := 404
  const INTERNAL_SERVER_ERROR := 500

  const ALL_FIELDS_REQUIRED := "All fields are required"
  const NO_FIELDS_TO_UPDATE := "No fields to update"
  const SONG_NOT_FOUND := "Song not found"
  const INTERNAL_ERROR := "Internal Server Error"

  /** A response body: `{ error: ... }`, one row as JSON (`None` is `undefined`), or nothing. */
  datatype Json =
    | ErrorJson(error: string)
    | SongJson(song: Option<Song>)
    | NoBody

  datatype Response = Response(status: nat, body: Json)

  /** A handler's first decision: answer at once, or send one statement to the store. */
  datatype Plan =
    | Reject(response: Response)
    | Issue(query: Query)

  /** Everything a handler does for one request: the statement it sent, if any, and its answer. */
  datatype Exchange = Exchange(issued: Option<Query>, response: Response)

  /** The generic answer to any store failure. */
  const INTERNAL_ERROR_RESPONSE := Response(INTERNAL_SERVER_ERROR, ErrorJson(INTERNAL_ERROR))
}
