/**
 * The JSON request body of POST /songs and PUT /songs/:id, restricted to the
 * five song fields. A key that is absent is `None`; values that are not
 * strings are outside the model.
 */
module Request {
  import opened Wrappers

  /** The fields of a song a client may send. */
  datatype Field = Name | Artist | Album | Poster | PreviewUrl

  /** The column of the songs table that holds each field. */
  function ColumnName(f: Field): string {
    match f
    case Name => "name"
    case Artist => "artist"
    case Album => "album"
    case Poster => "poster"
    case PreviewUrl => "preview_url"
  }

  datatype Body = Body(
    name: Option<string>,
    artist: Option<string>,
    album: Option<string>,
    poster: Option<string>,
    previewUrl: Option<string>)

  function Get(b: Body, f: Field): Option<string> {
    match f
    case Name => b.name
    case Artist => b.artist
    case Album => b.album
    case Poster => b.poster
    case PreviewUrl => b.previewUrl
  }

  /** JavaScript truthiness of an optional string: present and non-empty. */
  predicate Truthy(v: Option<string>) {
    v.Some? && v.value != ""
  }

  /** The text held by field `f`, or "" when the key is absent. */
  function Text(b: Body, f: Field): string {
    Get(b, f).GetOr("")
  }

  /** The texts of `fields` in `b`, in the order given. */
  function ValuesOf(b: Body, fields: seq<Field>): (vs: seq<string>)
    ensures |vs| == |fields|
    ensures forall j :: 0 <= j < |fields| ==> vs[j] == Text(b, fields[j])
  {
    seq(|fields|, j requires 0 <= j < |fields| => Text(b, fields[j]))
  }
}
