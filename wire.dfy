/**
 The objects the server writes with writeResponseChunk and the client reads in
 handleChat. On the wire each one is a JSON object whose keys differ from event
 type to event type, so the model keeps ONE record with an optional value per key:
 a key the writer leaves out is None. Keeping one record makes the key quirks of
 the source visible: some events carry the turn id under `id`, others under `uuid`.
 */
module Wire {

  datatype Option<+T> = None | Some(value: T)

  /** A retrieved source as the client receives it; `meta` stands for every other key. */
  datatype Source = Source(text: string, meta: string)

  /** The `error` key: absent, `null`, `false`, or a message. */
  datatype ErrorField = Absent | Null | False | Message(text: string)

  /** One object handed to writeResponseChunk. `textResponse` None is an absent or null key. */
  datatype Chunk = Chunk(
    id: Option<string>,
    uuid: Option<string>,
    kind: string,                 // the `type` key
    textResponse: Option<string>,
    sources: Option<seq<Source>>,
    close: bool,                  // an absent `close` reads as false
    error: ErrorField,
    chatId: Option<int>,
    redactedMessage: Option<string>)
}
