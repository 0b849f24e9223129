/**
 * The database as the handlers see it: a parameterised statement goes out,
 * and either a failure or a row count with the returned rows comes back.
 */
module Store {
  import opened Wrappers

  /** One row of the songs table. */
  datatype Song = Song(
    id: int,
    name: string,
    artist: string,
    album: string,
    poster: string,
    previewUrl: string)

  /** A statement with `$1`, `$2`, ... placeholders and the values bound to them. */
  datatype Query = Query(text: string, params: seq<string>)

  /** What the store answers; `detail` is the driver's error, never shown to clients. */
  datatype QueryResult =
    | Failure(detail: string)
    | Rows(rowCount: nat, rows: seq<Song>)

  /** `result.rows[0]`, where an empty array gives JavaScript's `undefined`. */
  function FirstRow(rows: seq<Song>): (r: Option<Song>)
    ensures r.Some? <==> |rows| > 0
    ensures r.Some? ==> r.value == rows[0]
  {
    if |rows| > 0 then Some(rows[0]) else None
  }
}
