/** Vocabulary shared by the server and the client models. */
module Types {

  datatype Option<+T> = None | Some(value: T)

  /** An encoded flatbuffers message; only its identity matters here. */
  type Message = string

  datatype Status = Status(code: int, details: string) {
    predicate Ok() { code == 0 }
  }

  const STATUS_OK := Status(0, "")
  const INTERNAL := 13

  datatype RpcType = NormalRpc | ClientStreaming | ServerStreaming | BidiStreaming {
    predicate StreamsRequests() { ClientStreaming? || BidiStreaming? }

    predicate StreamsResponses() { ServerStreaming? || BidiStreaming? }
  }

  datatype Event = NewConnection | Read | WriteNeeded | Write | Finish | Done

  /** An entry of the send queue; an absent message means a response without a body. */
  datatype SendItem = SendItem(msg: Option<Message>, status: Status)
}
