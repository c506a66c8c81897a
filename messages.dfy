/** Chat messages as the LangChain message classes carry them: a type tag and
    a text content. */
module Messages {

  /** The message classes: `HumanMessage`, `AIMessage`, `SystemMessage` and
      `ToolMessage`. */
  datatype Kind = Human | Ai | System | Tool

  datatype Message = Message(kind: Kind, content: string)

  /** The `type` attribute of each message class. */
  function TypeName(k: Kind): (name: string)
    ensures name == "human" <==> k == Human
  {
    match k
    case Human => "human"
    case Ai => "ai"
    case System => "system"
    case Tool => "tool"
  }

  /** `AIMessage(content=c)` */
  function AiMessage(c: string): Message {
    Message(Ai, c)
  }

  /** `HumanMessage(content=c)` */
  function HumanMessage(c: string): Message {
    Message(Human, c)
  }
}
