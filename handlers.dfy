/**
 * The POST, PUT and DELETE handlers of /songs: what each one checks, the
 * statement it sends to the store, and how it turns the store's answer into
 * an HTTP response. The store's answer is a parameter: a handler that sends
 * no statement ignores it.
 */
module Handlers {
  import opened Wrappers
  import opened Request
  import opened Store
  import opened Http
  import opened UpdateBuilder

  /** The fields POST requires, in the column order of its INSERT. */
  const REQUIRED: seq<Field> := [Name, Artist, Album, Poster, PreviewUrl]

  const INSERT_TEXT :=
    "INSERT INTO songs (name, artist, album, poster, preview_url) VALUES ($1, $2, $3, $4, $5) RETURNING *"

  const DELETE_TEXT := "DELETE FROM songs WHERE id = $1"

  // ---------------------------------------------------------------------------
  // POST /songs

  /** The presence check: some field is absent or empty. */
  predicate MissingField(b: Body) {
    !Truthy(b.name) || !Truthy(b.artist) || !Truthy(b.album) || !Truthy(b.poster) || !Truthy(b.previewUrl)
  }

  lemma MissingFieldIffSomeRequiredFalsy(b: Body)
    ensures MissingField(b) <==> exists f :: f in REQUIRED && !Truthy(Get(b, f))
  {
    if MissingField(b) {
      var f :| f in REQUIRED && !Truthy(Get(b, f)) by {
        if !Truthy(b.name) { assert Get(b, Name) == b.name; }
        else if !Truthy(b.artist) { assert Get(b, Artist) == b.artist; }
        else if !Truthy(b.album) { assert Get(b, Album) == b.album; }
        else if !Truthy(b.poster) { assert Get(b, Poster) == b.poster; }
        else { assert Get(b, PreviewUrl) == b.previewUrl; }
      }
    }
  }

  /** What POST /songs does before asking the store. */
  function CreatePlan(b: Body): (plan: Plan)
    ensures plan.Reject? <==> exists f :: f in REQUIRED && !Truthy(Get(b, f))
    ensures plan.Reject? ==> plan.response == Response(BAD_REQUEST, ErrorJson(ALL_FIELDS_REQUIRED))
    ensures plan.Issue? ==>
      && plan.query.text == INSERT_TEXT
      && |plan.query.params| == |REQUIRED|
      && forall i :: 0 <= i < |REQUIRED| ==> Get(b, REQUIRED[i]) == Some(plan.query.params[i])
  {
    MissingFieldIffSomeRequiredFalsy(b);
    if MissingField(b) then Reject(Response(BAD_REQUEST, ErrorJson(ALL_FIELDS_REQUIRED)))
    else Issue(Query(INSERT_TEXT, [b.name.value, b.artist.value, b.album.value, b.poster.value, b.previewUrl.value]))
  }

  /** The answer to the INSERT: the row it returned, with 201. */
  function CreateResponse(r: QueryResult): (resp: Response)
    ensures resp.status == INTERNAL_SERVER_ERROR <==> r.Failure?
    ensures r.Failure? ==> resp == INTERNAL_ERROR_RESPONSE
    ensures r.Rows? ==> resp == Response(CREATED, SongJson(FirstRow(r.rows)))
  {
    match r
    case Failure(_) => INTERNAL_ERROR_RESPONSE
    case Rows(_, rows) => Response(CREATED, SongJson(FirstRow(rows)))
  }

  /**
   * POST /songs. A body lacking any of the five fields gets 400 and no
   * statement; otherwise the five values go to the INSERT in column order.
   */
  function HandleCreate(b: Body, r: QueryResult): (x: Exchange)
    ensures x.issued.None? <==> exists f :: f in REQUIRED && !Truthy(Get(b, f))
    ensures x.issued.None? ==> x.response == Response(BAD_REQUEST, ErrorJson(ALL_FIELDS_REQUIRED))
    ensures x.issued.Some? ==>
      && x.issued.value.text == INSERT_TEXT
      && |x.issued.value.params| == |REQUIRED|
      && forall i :: 0 <= i < |REQUIRED| ==> Get(b, REQUIRED[i]) == Some(x.issued.value.params[i])
    ensures x.issued.Some? ==> x.response == CreateResponse(r)
  {
    MissingFieldIffSomeRequiredFalsy(b);
    match CreatePlan(b)
    case Reject(resp) => Exchange(None, resp)
    case Issue(q) => Exchange(Some(q), CreateResponse(r))
  }

  // ---------------------------------------------------------------------------
  // PUT /songs/:id

  /** The answer to the UPDATE: 404 when no row matched, else the updated row. */
  function UpdateResponse(r: QueryResult): (resp: Response)
    ensures resp.status == INTERNAL_SERVER_ERROR <==> r.Failure?
    ensures resp.status == NOT_FOUND <==> r.Rows? && r.rowCount == 0
    ensures resp.status == OK <==> r.Rows? && r.rowCount > 0
    ensures r.Failure? ==> resp == INTERNAL_ERROR_RESPONSE
    ensures resp.status == NOT_FOUND ==> resp.body == ErrorJson(SONG_NOT_FOUND)
    ensures resp.status == OK ==> resp.body == SongJson(FirstRow(r.rows))
  {
    match r
    case Failure(_) => INTERNAL_ERROR_RESPONSE
    case Rows(rowCount, rows) =>
      if rowCount == 0 then Response(NOT_FOUND, ErrorJson(SONG_NOT_FOUND))
      else Response(OK, SongJson(FirstRow(rows)))
  }

  /**
   * PUT /songs/:id. A body with no truthy updatable field gets 400 and no
   * statement; otherwise the planned UPDATE goes to the store.
   */
  function HandleUpdate(id: string, b: Body, r: QueryResult): (x: Exchange)
    ensures x.issued.None? <==> forall f :: f in UPDATABLE ==> !Truthy(Get(b, f))
    ensures x.issued.None? ==> x.response == Response(BAD_REQUEST, ErrorJson(NO_FIELDS_TO_UPDATE))
    ensures x.issued.Some? ==> UpdatePlan(id, b) == Issue(x.issued.value)
    ensures x.issued.Some? ==> x.response == UpdateResponse(r)
  {
    UpdateRejectedIffNothingToSet(id, b);
    match UpdatePlan(id, b)
    case Reject(resp) => Exchange(None, resp)
    case Issue(q) => Exchange(Some(q), UpdateResponse(r))
  }

  // ---------------------------------------------------------------------------
  // DELETE /songs/:id

  /** The answer to the DELETE: 404 when no row matched, else 204 with no body. */
  function DeleteResponse(r: QueryResult): (resp: Response)
    ensures resp.status == INTERNAL_SERVER_ERROR <==> r.Failure?
    ensures resp.status == NOT_FOUND <==> r.Rows? && r.rowCount == 0
    ensures resp.status == NO_CONTENT <==> r.Rows? && r.rowCount > 0
    ensures r.Failure? ==> resp == INTERNAL_ERROR_RESPONSE
    ensures resp.status == NOT_FOUND ==> resp.body == ErrorJson(SONG_NOT_FOUND)
    ensures resp.status == NO_CONTENT ==> resp.body == NoBody
  {
    match r
    case Failure(_) => INTERNAL_ERROR_RESPONSE
    case Rows(rowCount, _) =>
      if rowCount == 0 then Response(NOT_FOUND, ErrorJson(SONG_NOT_FOUND))
      else Response(NO_CONTENT, NoBody)
  }

  /** DELETE /songs/:id always sends its one statement. */
  function HandleDelete(id: string, r: QueryResult): (x: Exchange)
    ensures x.issued == Some(Query(DELETE_TEXT, [id]))
    ensures x.response == DeleteResponse(r)
  {
    Exchange(Some(Query(DELETE_TEXT, [id])), DeleteResponse(r))
  }

  // ---------------------------------------------------------------------------
  // Properties shared by the handlers

  /** Every response carries one of the three documented kinds of error, or none. */
  predicate WellFormed(resp: Response) {
    && resp.status in {OK, CREATED, NO_CONTENT, BAD_REQUEST, NOT_FOUND, INTERNAL_SERVER_ERROR}
    && (resp.status < 400 <==> !resp.body.ErrorJson?)
    && (resp.status == BAD_REQUEST ==>
          resp.body == ErrorJson(ALL_FIELDS_REQUIRED) || resp.body == ErrorJson(NO_FIELDS_TO_UPDATE))
    && (resp.status == NOT_FOUND ==> resp.body == ErrorJson(SONG_NOT_FOUND))
    && (resp.status == INTERNAL_SERVER_ERROR ==> resp.body == ErrorJson(INTERNAL_ERROR))
  }

  lemma HandlersAnswerWellFormed(id: string, b: Body, r: QueryResult)
    ensures WellFormed(HandleCreate(b, r).response)
    ensures WellFormed(HandleUpdate(id, b, r).response)
    ensures WellFormed(HandleDelete(id, r).response)
  {
  }

  /**
   * A store failure becomes the same generic 500 in every handler that sent
   * a statement: nothing of the failure's detail reaches the client.
   */
  lemma StoreFailureIsInternalError(id: string, b: Body, detail: string)
    ensures HandleCreate(b, Failure(detail)).issued.Some? ==>
      HandleCreate(b, Failure(detail)).response == INTERNAL_ERROR_RESPONSE
    ensures HandleUpdate(id, b, Failure(detail)).issued.Some? ==>
      HandleUpdate(id, b, Failure(detail)).response == INTERNAL_ERROR_RESPONSE
    ensures HandleDelete(id, Failure(detail)).response == INTERNAL_ERROR_RESPONSE
  {
  }

  /** A request rejected before the store is asked gets the same answer whatever the store would say. */
  lemma RejectionIgnoresStore(id: string, b: Body, r: QueryResult, r': QueryResult)
    ensures HandleCreate(b, r).issued.None? ==> HandleCreate(b, r) == HandleCreate(b, r')
    ensures HandleUpdate(id, b, r).issued.None? ==> HandleUpdate(id, b, r) == HandleUpdate(id, b, r')
  {
  }
}
