/**
 * A playback item: a URI and an opaque user payload. The pipeline never
 * interprets the payload; only the URI decides whether a media can be played.
 */
module Media {

  /** Stand-in for the type-erased payload: either empty or some caller value. */
  datatype Payload = NoPayload | UserPayload(id: nat)

  datatype Media = Media(uri: string, payload: Payload)

  /** A media is valid exactly when its URI is non-empty. */
  predicate IsValid(m: Media)
  {
    m.uri != []
  }

  function GetUri(m: Media): string
  {
    m.uri
  }

  function GetPayload(m: Media): Payload
  {
    m.payload
  }

  /** The default media: no URI and no payload, hence never valid. */
  function Default(): (m: Media)
    ensures !IsValid(m) && GetUri(m) == [] && GetPayload(m) == NoPayload
  {
    Media([], NoPayload)
  }

  /** A media built from a URI alone carries no payload. */
  function FromUri(uri: string): (m: Media)
    ensures GetUri(m) == uri && GetPayload(m) == NoPayload
    ensures IsValid(m) <==> |uri| > 0
  {
    Media(uri, NoPayload)
  }

  /** A media built from a URI and a payload (copied or moved in) keeps both. */
  function FromUriAndPayload(uri: string, payload: Payload): (m: Media)
    ensures GetUri(m) == uri && GetPayload(m) == payload
    ensures IsValid(m) <==> |uri| > 0
  {
    Media(uri, payload)
  }

  /**
   * Copy construction and copy assignment: the result has the source's URI and
   * payload, so it is valid exactly when the source is.
   */
  function Copy(source: Media): (m: Media)
    ensures GetUri(m) == GetUri(source) && GetPayload(m) == GetPayload(source)
    ensures IsValid(m) == IsValid(source)
  {
    Media(source.uri, source.payload)
  }

  /**
   * Move construction and move assignment: the destination takes over the
   * source's URI and payload. What is left behind in the source is not modelled.
   */
  function Moved(source: Media): (m: Media)
    ensures GetUri(m) == GetUri(source) && GetPayload(m) == GetPayload(source)
    ensures IsValid(m) == IsValid(source)
  {
    Media(source.uri, source.payload)
  }

  /** Copying and moving give the same value; the two differ only in the source's leftover. */
  lemma CopyIsMove(source: Media)
    ensures Copy(source) == Moved(source) == source
  {
  }
}
