/**
 * The platform's media values as the recorder sees them: the chunks a MediaRecorder hands
 * to its `ondataavailable` callback, the Blob built from them, and the object URL that
 * stands for a Blob.
 */
module Media {

  newtype Byte = b: int | 0 <= b < 256

  /** One `BlobEvent.data` payload; its `size` is the number of bytes. */
  type Chunk = seq<Byte>

  /** The container type the recorder and the Blob are created with. */
  const WebmType: string := "video/webm"

  datatype Blob = Blob(bytes: seq<Byte>, mimeType: string)

  /**
   * `URL.createObjectURL(blob)`: a reference that resolves to the blob. The textual form of
   * the URL is not modelled, only which blob it denotes.
   */
  datatype ObjectUrl = BlobUrl(blob: Blob)

  /** The bytes of `new Blob(parts)`: the parts one after another. */
  function Concat(parts: seq<Chunk>): seq<Byte>
  {
    if parts == [] then [] else parts[0] + Concat(parts[1..])
  }
}
