/** Value types shared by the backend model: optional values, HTTP-style
    errors, chat messages and the metadata ChromaDB stores beside each chunk. */
module Types {

  datatype Option<T> = None | Some(value: T) {
    /** Python's `d.get(key, default)` on a key that may be absent. */
    function GetOr(default: T): T {
      if Some? then value else default
    }
  }

  /** Python truthiness of an optional string: `None` and `""` are both false. */
  predicate Truthy(s: Option<string>) {
    s.Some? && s.value != []
  }

  /** An `HTTPException`: the status code and the `detail` text. */
  datatype HttpError = HttpError(status: nat, detail: string)

  datatype Result<T> = Ok(value: T) | Err(error: HttpError)

  /** One conversation turn, `{"role": ..., "content": ...}`. */
  datatype Message = Message(role: string, content: string)

  const UserRole: string := "user"
  const AssistantRole: string := "assistant"

  /** The metadata dictionary of one indexed chunk. A missing key is `None`;
      `page` holds the text `str()` gives for the stored page value. */
  datatype Metadata = Metadata(
    vendor: Option<string>,
    document: Option<string>,
    page: Option<string>,
    chunk: Option<int>)

  /** One entry of the collection as `collection.get` returns it: id and metadata. */
  datatype Record = Record(id: string, meta: Metadata)

  /** One indexed chunk: its id, its text and its metadata. */
  datatype Chunk = Chunk(id: string, text: string, meta: Metadata)

  /** What a retrieval returns: the chunk texts and their metadata, index by index. */
  datatype Retrieved = Retrieved(chunks: seq<string>, metas: seq<Metadata>)
}
