/** Small shared vocabulary: optional values, results with an error, and the
    role/content chat message that every component passes around. */
module Common {

  datatype Option<+T> = None | Some(value: T) {
    function GetOr(default: T): T {
      match this
      case Some(v) => v
      case None => default
    }
  }

  /** An exception the source raises, reduced to its kind. */
  datatype Error =
    | IndexError        // a list was indexed past its end
    | ValueError        // a bad argument (no API key, unknown provider, zero range step)
    | KeyError          // a dict was indexed with a missing key
    | TypeError         // None was indexed
    | GenerationFailed  // the language-model call raised
    | StoreFailed       // a vector-store or database call raised

  datatype Result<+T> = Ok(value: T) | Err(error: Error)

  datatype Outcome = Done | Raised(error: Error)

  /** A chat message as the source's dicts carry it: either key may be absent. */
  datatype Message = Message(role: Option<string>, content: Option<string>)

  function Msg(role: string, content: string): Message {
    Message(Some(role), Some(content))
  }

  /** Python truthiness of an optional string: present and non-empty. */
  predicate Truthy(s: Option<string>) {
    s.Some? && s.value != ""
  }

  /** Metadata as a query returns it: opaque key/value pairs. */
  type Meta = map<string, string>

  /** A vector-store query reply: one document list and one metadata list per
      query text; either key may be missing or hold None. */
  datatype QueryReply = QueryReply(documents: Option<seq<seq<string>>>, metadatas: Option<seq<seq<Meta>>>)
}
