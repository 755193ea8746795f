/** The records exchanged between the screens and the service (types.ts). */
module Types {

  /** Who authored a transcript turn. */
  datatype MessageRole = User | Model | System

  /** One turn of the transcript; `id` and `timestamp` come from the clock and are opaque here. */
  datatype Message = Message(id: string, role: MessageRole, text: string, timestamp: int)

  /** One reference document supplied by the user. */
  datatype PaperData = PaperData(id: string, title: string, content: string)

  /** The three screens of the application. */
  datatype AppState = Setup | Ingest | Analysis
}
